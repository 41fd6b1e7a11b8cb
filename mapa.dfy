/**
  The pure parts of the map view: the colour table keyed by federación, the
  colour lookup with its grey fallback, the popup of a record (as a list of
  sections rather than HTML) and the polygon drawn for a record.
 */
module Mapa {
  import opened Datos
  import opened Cadenas

  // ---------------------------------------------------------------------------
  // Colours
  // ---------------------------------------------------------------------------

  const GRIS := "#B8B8B8"

  /** The fixed table: six federaciones and the `default` entry. */
  const COLORES: map<string, string> := map[
    "UCTEQ" := "#FF6B6B",
    "FENAME" := "#4ECDC4",
    "UNAT" := "#FFD166",
    "FETAM" := "#95E1D3",
    "INDEPENDIENTE" := "#A8DADC",
    "SINAFED" := "#FFA8B6",
    "default" := GRIS]

  /** The federaciones that have a colour of their own. */
  const FEDERACIONES_CON_COLOR: set<string> :=
    {"UCTEQ", "FENAME", "UNAT", "FETAM", "INDEPENDIENTE", "SINAFED"}

  /** `COLORS[federacion] || COLORS.default`. */
  function ColorDe(federacion: Option<string>): (c: string)
    ensures c in COLORES.Values
    ensures federacion.Some? && federacion.value in COLORES ==> c == COLORES[federacion.value]
    ensures !(federacion.Some? && federacion.value in COLORES) ==> c == GRIS
  {
    if federacion.Some? && federacion.value in COLORES then COLORES[federacion.value]
    else assert COLORES["default"] == GRIS; GRIS
  }

  /** A record is drawn grey exactly when its federación is not one of the six
      named in the table: the six colours are all different from the fallback. */
  lemma ColorGrisSiiSinColorPropio(federacion: Option<string>)
    ensures ColorDe(federacion) == GRIS <==>
            !(federacion.Some? && federacion.value in FEDERACIONES_CON_COLOR)
  {
  }

  /** Each of the six federaciones gets its own colour from the table. */
  lemma ColoresPropios()
    ensures ColorDe(Some("UCTEQ")) == "#FF6B6B"
    ensures ColorDe(Some("FENAME")) == "#4ECDC4"
    ensures ColorDe(Some("UNAT")) == "#FFD166"
    ensures ColorDe(Some("FETAM")) == "#95E1D3"
    ensures ColorDe(Some("INDEPENDIENTE")) == "#A8DADC"
    ensures ColorDe(Some("SINAFED")) == "#FFA8B6"
  {
    assert "UCTEQ"[0] == 'U' && "UNAT"[1] == 'N' && "FENAME"[1] == 'E';
    assert "FETAM"[2] == 'T' && "INDEPENDIENTE"[0] == 'I' && "SINAFED"[0] == 'S';
  }

  // ---------------------------------------------------------------------------
  // Popup content
  // ---------------------------------------------------------------------------

  /** One block of a record's popup, in the order the popup shows them. */
  datatype Seccion =
    | Titulo(nombre: string)
    | Ubicacion(texto: string)
    | Federacion(texto: string, color: string)
    | Dias(etiquetas: seq<string>)
    | Horario(texto: string)
    | Tipo(texto: string)
    | Delegacion(texto: string)
    | ContactoInfo(nombre: string, telefono: Option<string>)
    | Antiguedad(anios: int)
    | Agremiados(cantidad: int)
    | Imagenes(urls: seq<string>, alt: string)
    | SinImagenes

  const NO_ESPECIFICADO := "No especificado"
  const NO_ESPECIFICADA := "No especificada"

  /** A template literal of an absent value prints "undefined". */
  function TextoDe(s: Option<string>): string
  {
    if s.Some? then s.value else "undefined"
  }

  /** The day tags: one per element of a list, otherwise a single tag. */
  function EtiquetasDias(dias: Campo): seq<string>
  {
    match dias
    case Lista(xs) => xs
    case Cadena(s) => [if s != "" then s else NO_ESPECIFICADO]
    case Ausente => [NO_ESPECIFICADO]
  }

  /** `${tianguis.tipo || 'No especificado'}`: a list prints as its elements
      joined with ",", and an empty list (truthy) prints as "". */
  function TextoTipo(tipo: Campo): string
  {
    match tipo
    case Lista(xs) => Unir(xs, ",")
    case Cadena(s) => if s != "" then s else NO_ESPECIFICADO
    case Ausente => NO_ESPECIFICADO
  }

  predicate ContactoVisible(t: Tianguis)
  {
    t.contacto.Some? && Verdadera(t.contacto.value.nombre)
  }

  predicate ImagenesVisibles(t: Tianguis)
  {
    t.imagenes.Some? && |t.imagenes.value| > 0
  }

  function SeccionContacto(t: Tianguis): seq<Seccion>
  {
    if ContactoVisible(t) then
      var c := t.contacto.value;
      [ContactoInfo(c.nombre.value, if Verdadera(c.telefono) then c.telefono else None)]
    else []
  }

  function SeccionAntiguedad(t: Tianguis): seq<Seccion>
  {
    if NumeroVerdadero(t.antiguedad) then [Antiguedad(t.antiguedad.value)] else []
  }

  function SeccionAgremiados(t: Tianguis): seq<Seccion>
  {
    if NumeroVerdadero(t.agremiados) then [Agremiados(t.agremiados.value)] else []
  }

  function SeccionImagenes(t: Tianguis): Seccion
  {
    if ImagenesVisibles(t) then Imagenes(t.imagenes.value, t.nombre) else SinImagenes
  }

  /** The seven sections every popup has, in order. */
  function SeccionesFijas(t: Tianguis, color: string): seq<Seccion>
  {
    [ Titulo(t.nombre),
      Ubicacion(TextoO(t.ubicacion, NO_ESPECIFICADA)),
      Federacion(TextoDe(t.federacion), color),
      Dias(EtiquetasDias(t.dias)),
      Horario(TextoO(t.horario, NO_ESPECIFICADO)),
      Tipo(TextoTipo(t.tipo)),
      Delegacion(t.delegacion) ]
  }

  function SeccionesOpcionales(t: Tianguis): seq<Seccion>
  {
    SeccionContacto(t) + SeccionAntiguedad(t) + SeccionAgremiados(t)
  }

  /** The popup of a record drawn in `color`: the seven fixed sections, then
      contact, antigüedad and agremiados when their fields are truthy, then the
      image strip or its placeholder. */
  function CrearPopupContent(t: Tianguis, color: string): (p: seq<Seccion>)
    ensures |p| == 8 + |SeccionContacto(t)| + |SeccionAntiguedad(t)| + |SeccionAgremiados(t)|
    ensures p[0] == Titulo(t.nombre)
    ensures p[|p| - 1] == (if ImagenesVisibles(t) then Imagenes(t.imagenes.value, t.nombre) else SinImagenes)
  {
    SeccionesFijas(t, color) + SeccionesOpcionales(t) + [SeccionImagenes(t)]
  }

  /** Where each part of the popup sits (a proof helper for the lemmas below). */
  lemma PopupPartes(t: Tianguis, color: string)
    ensures var p := CrearPopupContent(t, color);
      && p[..7] == SeccionesFijas(t, color)
      && p[7..|p| - 1] == SeccionesOpcionales(t)
      && (forall i :: 0 <= i < 7 ==> p[i] == SeccionesFijas(t, color)[i])
      && (forall i :: 7 <= i < |p| - 1 ==> p[i] == SeccionesOpcionales(t)[i - 7])
  {
  }

  /** The contact block appears exactly when `contacto` and its name are truthy,
      right after the seven fixed sections. */
  lemma PopupContacto(t: Tianguis, color: string)
    ensures var p := CrearPopupContent(t, color);
      (exists i :: 0 <= i < |p| && p[i].ContactoInfo?) <==> ContactoVisible(t)
    ensures ContactoVisible(t) ==> CrearPopupContent(t, color)[7].ContactoInfo?
  {
    var p := CrearPopupContent(t, color);
    PopupPartes(t, color);
    if ContactoVisible(t) {
      assert p[7].ContactoInfo?;
    } else {
      forall i | 0 <= i < |p| ensures !p[i].ContactoInfo? {
        if 7 <= i < |p| - 1 { assert p[i] in SeccionesOpcionales(t); }
      }
    }
  }

  /** The antigüedad section appears exactly when the field is truthy (so 0 is
      left out), and shows the field's value; it follows the contact block. */
  lemma PopupAntiguedad(t: Tianguis, color: string)
    ensures var p := CrearPopupContent(t, color);
      (exists i :: 0 <= i < |p| && p[i].Antiguedad?) <==> NumeroVerdadero(t.antiguedad)
    ensures var p := CrearPopupContent(t, color);
      forall i :: 0 <= i < |p| && p[i].Antiguedad? ==> p[i].anios == t.antiguedad.value
    ensures NumeroVerdadero(t.antiguedad) ==>
      CrearPopupContent(t, color)[7 + (if ContactoVisible(t) then 1 else 0)].Antiguedad?
  {
    var p := CrearPopupContent(t, color);
    PopupPartes(t, color);
    if NumeroVerdadero(t.antiguedad) {
      assert p[7 + |SeccionContacto(t)|].Antiguedad?;
    }
    forall i | 0 <= i < |p| && p[i].Antiguedad?
      ensures NumeroVerdadero(t.antiguedad) && p[i].anios == t.antiguedad.value
    {
      assert 7 <= i < |p| - 1;
      assert p[i] in SeccionesOpcionales(t);
    }
  }

  /** The agremiados section appears exactly when the field is truthy (so 0 is
      left out), and shows the field's value; it comes just before the images. */
  lemma PopupAgremiados(t: Tianguis, color: string)
    ensures var p := CrearPopupContent(t, color);
      (exists i :: 0 <= i < |p| && p[i].Agremiados?) <==> NumeroVerdadero(t.agremiados)
    ensures var p := CrearPopupContent(t, color);
      forall i :: 0 <= i < |p| && p[i].Agremiados? ==> p[i].cantidad == t.agremiados.value
    ensures var p := CrearPopupContent(t, color);
      NumeroVerdadero(t.agremiados) ==> p[|p| - 2].Agremiados?
  {
    var p := CrearPopupContent(t, color);
    PopupPartes(t, color);
    if NumeroVerdadero(t.agremiados) {
      assert p[|p| - 2].Agremiados?;
    }
    forall i | 0 <= i < |p| && p[i].Agremiados?
      ensures NumeroVerdadero(t.agremiados) && p[i].cantidad == t.agremiados.value
    {
      assert 7 <= i < |p| - 1;
      assert p[i] in SeccionesOpcionales(t);
    }
  }

  /** The image strip appears exactly when `imagenes` exists and is non-empty,
      with one image per URL in order; otherwise the placeholder appears. Either
      way there is exactly one image block, the last section. */
  lemma PopupImagenes(t: Tianguis, color: string)
    ensures var p := CrearPopupContent(t, color);
      && ((exists i :: 0 <= i < |p| && p[i].Imagenes?) <==> ImagenesVisibles(t))
      && ((exists i :: 0 <= i < |p| && p[i].SinImagenes?) <==> !ImagenesVisibles(t))
      && (forall i :: 0 <= i < |p| && p[i].Imagenes? ==> p[i].urls == t.imagenes.value)
      && (forall i :: 0 <= i < |p| - 1 ==> !p[i].Imagenes? && !p[i].SinImagenes?)
  {
    var p := CrearPopupContent(t, color);
    PopupPartes(t, color);
    forall i | 0 <= i < |p| - 1 ensures !p[i].Imagenes? && !p[i].SinImagenes? {
      if 7 <= i { assert p[i] in SeccionesOpcionales(t); }
    }
  }

  /** Days: a list gives one tag per element in order; anything else gives
      exactly one tag, the string itself or "No especificado" when it is empty
      or absent. The days section is always present, once. */
  lemma PopupDias(t: Tianguis, color: string)
    ensures var p := CrearPopupContent(t, color);
      p[3].Dias? && forall i :: 0 <= i < |p| && i != 3 ==> !p[i].Dias?
    ensures var tags := CrearPopupContent(t, color)[3].etiquetas;
      && (t.dias.Lista? ==> tags == t.dias.xs)
      && (!t.dias.Lista? ==> |tags| == 1)
      && (t.dias.Cadena? && t.dias.s != "" ==> tags == [t.dias.s])
      && (!CampoVerdadero(t.dias) ==> tags == [NO_ESPECIFICADO])
  {
  }

  /** The fixed sections with their fallback texts: ubicación falls back to
      "No especificada", horario and tipo to "No especificado"; federación (in
      the record's colour) and delegación always appear. A list-valued tipo is
      truthy even when empty and prints as its elements joined with ",". */
  lemma PopupSeccionesFijas(t: Tianguis, color: string)
    ensures var p := CrearPopupContent(t, color);
      && p[1] == Ubicacion(if Verdadera(t.ubicacion) then t.ubicacion.value else NO_ESPECIFICADA)
      && p[2] == Federacion(if t.federacion.Some? then t.federacion.value else "undefined", color)
      && p[4] == Horario(if Verdadera(t.horario) then t.horario.value else NO_ESPECIFICADO)
      && p[6] == Delegacion(t.delegacion)
    ensures var p := CrearPopupContent(t, color);
      && p[5].Tipo?
      && (!CampoVerdadero(t.tipo) ==> p[5].texto == NO_ESPECIFICADO)
      && (t.tipo.Cadena? && t.tipo.s != "" ==> p[5].texto == t.tipo.s)
      && (t.tipo.Lista? ==> p[5].texto == Unir(t.tipo.xs, ","))
      && (t.tipo == Lista([]) ==> p[5].texto == "")
      && (t.tipo.Lista? && |t.tipo.xs| == 1 ==> p[5].texto == t.tipo.xs[0])
      && (t.tipo.Lista? && |t.tipo.xs| == 2 ==> p[5].texto == t.tipo.xs[0] + "," + t.tipo.xs[1])
  {
  }

  /** The contact block names the contact, and carries the phone exactly when
      the phone is truthy too. */
  lemma PopupTelefono(t: Tianguis, color: string)
    requires ContactoVisible(t)
    ensures var p := CrearPopupContent(t, color);
      && p[7] == ContactoInfo(t.contacto.value.nombre.value, p[7].telefono)
      && (p[7].telefono.Some? <==> Verdadera(t.contacto.value.telefono))
      && (p[7].telefono.Some? ==> p[7].telefono == t.contacto.value.telefono)
  {
  }

  // ---------------------------------------------------------------------------
  // Polygons
  // ---------------------------------------------------------------------------

  /** What the map layer holds for one record: its vertices, its colour and its
      popup. */
  datatype Poligono = Poligono(coordenadas: seq<Vertice>, color: string, popup: seq<Seccion>)

  /** The polygon `renderizarTianguis` builds for one record. */
  function PoligonoDe(t: Tianguis): (g: Poligono)
    ensures g.coordenadas == t.coordenadas
    ensures g.color == ColorDe(t.federacion)
    ensures g.popup == CrearPopupContent(t, g.color)
  {
    var color := ColorDe(t.federacion);
    Poligono(t.coordenadas, color, CrearPopupContent(t, color))
  }
}
