/**
  One market record ("tianguis") as the dataset gives it. JavaScript's dynamic
  values are made explicit: an optional field is an `Option`, and the two fields
  that may hold either one string or a list of strings (`dias`, `tipo`) are a
  `Campo`. The truthiness tests the code applies to them are spelled out here.
 */
module Datos {

  datatype Option<T> = None | Some(value: T)

  /** A field given as a single string, as a list of strings, or not at all. */
  datatype Campo = Ausente | Cadena(s: string) | Lista(xs: seq<string>)

  datatype Contacto = Contacto(nombre: Option<string>, telefono: Option<string>)

  /** One vertex of `coordenadas`, handed to the map library unchanged. */
  datatype Vertice = Vertice(x: real, y: real)

  datatype Tianguis = Tianguis(
    nombre: string,
    ubicacion: Option<string>,
    delegacion: string,
    federacion: Option<string>,
    dias: Campo,
    horario: Option<string>,
    tipo: Campo,
    contacto: Option<Contacto>,
    antiguedad: Option<int>,
    agremiados: Option<int>,
    imagenes: Option<seq<string>>,
    coordenadas: seq<Vertice>)

  /** A string value is truthy when present and non-empty. */
  predicate Verdadera(s: Option<string>)
  {
    s.Some? && s.value != ""
  }

  /** A string-or-list field is truthy when it is a non-empty string or any list
      (an empty array is truthy in JavaScript). */
  predicate CampoVerdadero(c: Campo)
  {
    match c
    case Ausente => false
    case Cadena(s) => s != ""
    case Lista(_) => true
  }

  /** A number is truthy when present and non-zero. */
  predicate NumeroVerdadero(n: Option<int>)
  {
    n.Some? && n.value != 0
  }

  /** `s || fallback` on an optional string. */
  function TextoO(s: Option<string>, fallback: string): (r: string)
    ensures Verdadera(s) ==> r == s.value
    ensures !Verdadera(s) ==> r == fallback
  {
    if Verdadera(s) then s.value else fallback
  }
}
