/**
  The filter predicate over market records, the filter-option lists derived
  from the whole dataset, and the colour legend. The four select controls are
  passed in as a `Criterios` value; the empty string means "no constraint".
 */
module Filtros {
  import opened Datos
  import opened Cadenas
  import opened Mapa

  // ---------------------------------------------------------------------------
  // The filter predicate
  // ---------------------------------------------------------------------------

  /** The values of the day, type, district and federación selects. */
  datatype Criterios = Criterios(dia: string, tipo: string, delegacion: string, federacion: string)

  /** All four controls cleared. */
  const SIN_CRITERIOS := Criterios("", "", "", "")

  /** Day check: some day of a list, or the single day string, contains `dia`. */
  predicate CumpleDia(t: Tianguis, dia: string)
  {
    dia == "" ||
    (CampoVerdadero(t.dias) &&
      match t.dias
      case Lista(xs) => exists d :: d in xs && Incluye(d, dia)
      case Cadena(s) => Incluye(s, dia)
      case Ausente => false)
  }

  /** Type check: exact membership in a list, substring of a single string. */
  predicate CumpleTipo(t: Tianguis, tipo: string)
  {
    tipo == "" ||
    (CampoVerdadero(t.tipo) &&
      match t.tipo
      case Lista(xs) => tipo in xs
      case Cadena(s) => Incluye(s, tipo)
      case Ausente => false)
  }

  predicate CumpleDelegacion(t: Tianguis, delegacion: string)
  {
    delegacion == "" || t.delegacion == delegacion
  }

  predicate CumpleFederacion(t: Tianguis, federacion: string)
  {
    federacion == "" || t.federacion == Some(federacion)
  }

  /** The predicate passed to `allTianguis.filter`. */
  predicate Cumple(t: Tianguis, c: Criterios)
  {
    && CumpleDia(t, c.dia)
    && CumpleTipo(t, c.tipo)
    && CumpleDelegacion(t, c.delegacion)
    && CumpleFederacion(t, c.federacion)
  }

  /** `allTianguis.filter(...)`: the records meeting every set criterion. */
  function Filtrar(ts: seq<Tianguis>, c: Criterios): (r: seq<Tianguis>)
    ensures forall t :: t in r <==> t in ts && Cumple(t, c)
    ensures |r| <= |ts|
    decreases |ts|
  {
    if ts == [] then []
    else (if Cumple(ts[0], c) then [ts[0]] else []) + Filtrar(ts[1..], c)
  }

  /** `r` can be obtained from `s` by deleting elements, keeping the order. */
  predicate EsSubsecuencia<T(==)>(r: seq<T>, s: seq<T>)
    decreases |s|
  {
    if r == [] then true
    else if s == [] then false
    else (r[0] == s[0] && EsSubsecuencia(r[1..], s[1..])) || EsSubsecuencia(r, s[1..])
  }

  /** The filtered list keeps the original relative order. */
  lemma {:induction false} FiltrarEsSubsecuencia(ts: seq<Tianguis>, c: Criterios)
    ensures EsSubsecuencia(Filtrar(ts, c), ts)
    decreases |ts|
  {
    if ts != [] {
      FiltrarEsSubsecuencia(ts[1..], c);
      var r := Filtrar(ts, c);
      if Cumple(ts[0], c) {
        assert r[0] == ts[0] && r[1..] == Filtrar(ts[1..], c);
      } else {
        assert r == Filtrar(ts[1..], c);
      }
    }
  }

  /** Every matching record keeps its multiplicity and no other record is kept:
      nothing is duplicated or dropped beyond what the criteria exclude. */
  lemma {:induction false} FiltrarMultiplicidad(ts: seq<Tianguis>, c: Criterios, t: Tianguis)
    ensures multiset(Filtrar(ts, c))[t] == if Cumple(t, c) then multiset(ts)[t] else 0
    decreases |ts|
  {
    if ts != [] {
      FiltrarMultiplicidad(ts[1..], c, t);
      assert ts == [ts[0]] + ts[1..];
    }
  }

  /** With all four controls cleared the result is the whole dataset. */
  lemma {:induction false} FiltrarSinCriterios(ts: seq<Tianguis>)
    ensures Filtrar(ts, SIN_CRITERIOS) == ts
    decreases |ts|
  {
    if ts != [] {
      FiltrarSinCriterios(ts[1..]);
      assert ts == [ts[0]] + ts[1..];
    }
  }

  /** Day rule with a day chosen: the record passes iff `dias` is a list with an
      element containing the day, or a string containing it; a missing `dias`
      fails. */
  lemma ReglaDia(t: Tianguis, dia: string)
    requires dia != ""
    ensures CumpleDia(t, dia) <==>
      || (t.dias.Lista? && exists d, i :: d in t.dias.xs && OcurreEn(d, dia, i))
      || (t.dias.Cadena? && exists i :: OcurreEn(t.dias.s, dia, i))
  {
  }

  /** Type rule with a type chosen: a list passes iff it holds the type exactly,
      a string iff it contains the type; a missing `tipo` fails. */
  lemma ReglaTipo(t: Tianguis, tipo: string)
    requires tipo != ""
    ensures CumpleTipo(t, tipo) <==>
      || (t.tipo.Lista? && tipo in t.tipo.xs)
      || (t.tipo.Cadena? && exists i :: OcurreEn(t.tipo.s, tipo, i))
  {
  }

  /** `fino` constrains at least as much as `grueso`: every criterion set in
      `grueso` is set to the same value in `fino`. */
  predicate Refina(fino: Criterios, grueso: Criterios)
  {
    && (grueso.dia == "" || fino.dia == grueso.dia)
    && (grueso.tipo == "" || fino.tipo == grueso.tipo)
    && (grueso.delegacion == "" || fino.delegacion == grueso.delegacion)
    && (grueso.federacion == "" || fino.federacion == grueso.federacion)
  }

  /** A record meeting the finer criteria meets the coarser ones: the checks are
      combined by conjunction and an empty criterion always passes. */
  lemma CumpleRefinado(t: Tianguis, fino: Criterios, grueso: Criterios)
    requires Refina(fino, grueso) && Cumple(t, fino)
    ensures Cumple(t, grueso)
  {
  }

  /** Setting more criteria never enlarges the result: filtering with the finer
      criteria is filtering the coarser result again. */
  lemma {:induction false} FiltrarRefinado(ts: seq<Tianguis>, fino: Criterios, grueso: Criterios)
    requires Refina(fino, grueso)
    ensures Filtrar(ts, fino) == Filtrar(Filtrar(ts, grueso), fino)
    decreases |ts|
  {
    if ts != [] {
      FiltrarRefinado(ts[1..], fino, grueso);
      var g := Filtrar(ts, grueso);
      var g' := Filtrar(ts[1..], grueso);
      var f' := Filtrar(ts[1..], fino);
      if Cumple(ts[0], grueso) {
        assert g == [ts[0]] + g';
        assert g[1..] == g';
        assert Filtrar(g, fino) == (if Cumple(ts[0], fino) then [ts[0]] else []) + f';
      } else {
        if Cumple(ts[0], fino) { CumpleRefinado(ts[0], fino, grueso); }
        assert g == g';
        assert Filtrar(ts, fino) == f';
      }
    }
  }

  /** ... and it is an order-preserving subsequence of the coarser result. */
  lemma FiltrarRefinadoSubsecuencia(ts: seq<Tianguis>, fino: Criterios, grueso: Criterios)
    requires Refina(fino, grueso)
    ensures EsSubsecuencia(Filtrar(ts, fino), Filtrar(ts, grueso))
  {
    FiltrarRefinado(ts, fino, grueso);
    FiltrarEsSubsecuencia(Filtrar(ts, grueso), fino);
  }

  // ---------------------------------------------------------------------------
  // Filter options
  // ---------------------------------------------------------------------------

  /** `f && f.trim() !== ''` on a federación. */
  predicate NoEnBlanco(f: Option<string>)
  {
    f.Some? && f.value != "" && Recortar(f.value) != ""
  }

  /** A federación is non-blank exactly when it holds some character other than
      whitespace. */
  lemma NoEnBlancoSii(f: Option<string>)
    ensures NoEnBlanco(f) <==> f.Some? && exists i :: 0 <= i < |f.value| && !EsEspacio(f.value[i])
  {
  }

  function ListaDelegaciones(ts: seq<Tianguis>): (r: seq<string>)
    ensures |r| == |ts|
    ensures forall d :: d in r <==> exists t :: t in ts && t.delegacion == d
    decreases |ts|
  {
    if ts == [] then [] else [ts[0].delegacion] + ListaDelegaciones(ts[1..])
  }

  /** The district options: the distinct districts, sorted. */
  function Delegaciones(ts: seq<Tianguis>): (r: seq<string>)
    ensures Ordenada(r)
    ensures forall d :: d in r <==> exists t :: t in ts && t.delegacion == d
  {
    OrdenarUnicos(ListaDelegaciones(ts))
  }

  function ListaFederaciones(ts: seq<Tianguis>): (r: seq<string>)
    ensures forall f :: f in r <==> exists t :: t in ts && t.federacion == Some(f) && NoEnBlanco(t.federacion)
    decreases |ts|
  {
    if ts == [] then []
    else
      var cabeza := if NoEnBlanco(ts[0].federacion) then [ts[0].federacion.value] else [];
      var resto := ListaFederaciones(ts[1..]);
      assert forall f :: f in cabeza <==> ts[0].federacion == Some(f) && NoEnBlanco(ts[0].federacion);
      assert forall t :: t in ts <==> t == ts[0] || t in ts[1..];
      cabeza + resto
  }

  /** The federación options: the distinct non-blank federaciones, sorted. */
  function Federaciones(ts: seq<Tianguis>): (r: seq<string>)
    ensures Ordenada(r)
    ensures forall f :: f in r <==> exists t :: t in ts && t.federacion == Some(f) && NoEnBlanco(t.federacion)
  {
    OrdenarUnicos(ListaFederaciones(ts))
  }

  /** The type tags of one record: the elements of a list-valued `tipo`, or a
      truthy string-valued `tipo` itself. */
  function EtiquetasDe(tipo: Campo): seq<string>
  {
    match tipo
    case Lista(xs) => xs
    case Cadena(s) => if s != "" then [s] else []
    case Ausente => []
  }

  /** `x` is one of the type tags of a record. */
  predicate EsEtiqueta(x: string, tipo: Campo)
  {
    x in EtiquetasDe(tipo)
  }

  /** Every tag of every record, in dataset order, repetitions included. */
  function Etiquetas(ts: seq<Tianguis>): (r: seq<string>)
    ensures forall x :: x in r <==> exists t :: t in ts && EsEtiqueta(x, t.tipo)
    decreases |ts|
  {
    if ts == [] then []
    else
      var init := ts[..|ts| - 1];
      assert forall t :: t in ts <==> t in init || t == ts[|ts| - 1];
      Etiquetas(init) + EtiquetasDe(ts[|ts| - 1].tipo)
  }

  /** The type options: every tag of every record, list- or string-valued,
      distinct and sorted. */
  function Tipos(ts: seq<Tianguis>): (r: seq<string>)
    ensures Ordenada(r)
    ensures forall x :: x in r <==> exists t :: t in ts && EsEtiqueta(x, t.tipo)
  {
    OrdenarUnicos(Etiquetas(ts))
  }

  /** `Set.prototype.add` on a set kept as its insertion-ordered elements. */
  function Agregar(conjunto: seq<string>, x: string): (r: seq<string>)
    requires SinRepetidos(conjunto)
    ensures SinRepetidos(r)
    ensures forall y :: y in r <==> y in conjunto || y == x
  {
    if x in conjunto then conjunto else conjunto + [x]
  }

  /** `xs.forEach(x => conjunto.add(x))`. */
  method AgregarTodas(conjunto: seq<string>, xs: seq<string>) returns (r: seq<string>)
    requires SinRepetidos(conjunto)
    ensures SinRepetidos(r)
    ensures forall y :: y in r <==> y in conjunto || y in xs
  {
    r := conjunto;
    for j := 0 to |xs|
      invariant SinRepetidos(r)
      invariant forall y :: y in r <==> y in conjunto || y in xs[..j]
    {
      r := Agregar(r, xs[j]);
      assert xs[..j + 1] == xs[..j] + [xs[j]];
    }
    assert xs[..|xs|] == xs;
  }

  /** The body of the walk over the records: a list-valued `tipo` adds each of
      its elements, a truthy string-valued one adds itself. */
  method AgregarEtiquetas(conjunto: seq<string>, tipo: Campo) returns (r: seq<string>)
    requires SinRepetidos(conjunto)
    ensures SinRepetidos(r)
    ensures forall y :: y in r <==> y in conjunto || y in EtiquetasDe(tipo)
  {
    match tipo {
      case Lista(xs) =>
        r := AgregarTodas(conjunto, xs);
      case Cadena(s) =>
        r := conjunto;
        if s != "" {
          r := Agregar(conjunto, s);
        }
      case Ausente =>
        r := conjunto;
    }
  }

  /** The walk of `llenarFiltros` over the records, collecting every type tag
      into a `Set`. */
  method ColectarEtiquetas(ts: seq<Tianguis>) returns (tiposSet: seq<string>)
    ensures SinRepetidos(tiposSet)
    ensures forall x :: x in tiposSet <==> x in Etiquetas(ts)
  {
    tiposSet := [];
    var k := 0;
    while k < |ts|
      invariant 0 <= k <= |ts|
      invariant SinRepetidos(tiposSet)
      invariant forall x :: x in tiposSet <==> x in Etiquetas(ts[..k])
    {
      assert ts[..k + 1][..k] == ts[..k];
      assert Etiquetas(ts[..k + 1]) == Etiquetas(ts[..k]) + EtiquetasDe(ts[k].tipo);
      tiposSet := AgregarEtiquetas(tiposSet, ts[k].tipo);
      k := k + 1;
    }
    assert ts[..k] == ts;
  }

  /** The three option lists of the district, federación and type selects. */
  datatype OpcionesFiltro = OpcionesFiltro(
    delegaciones: seq<string>, federaciones: seq<string>, tipos: seq<string>)

  /** `llenarFiltros`: nothing is produced for an empty dataset; otherwise the
      sorted distinct districts, the sorted distinct non-blank federaciones, and
      the type tags, collected into a `Set` (which keeps first-seen order) by
      walking the records and then sorted. */
  method LlenarFiltros(ts: seq<Tianguis>) returns (r: Option<OpcionesFiltro>)
    ensures r.None? <==> ts == []
    ensures r.Some? ==> r.value == OpcionesFiltro(Delegaciones(ts), Federaciones(ts), Tipos(ts))
  {
    if |ts| == 0 {
      return None;
    }
    var delegaciones := Delegaciones(ts);
    var federaciones := Federaciones(ts);
    var tiposSet := ColectarEtiquetas(ts);
    var tipos := OrdenarUnicos(tiposSet);
    OrdenarUnicosMismosElementos(tiposSet, Etiquetas(ts));
    return Some(OpcionesFiltro(delegaciones, federaciones, tipos));
  }

  // ---------------------------------------------------------------------------
  // Legend
  // ---------------------------------------------------------------------------

  datatype ItemLeyenda = ItemLeyenda(federacion: string, color: string)

  function ItemDe(f: string): ItemLeyenda
  {
    ItemLeyenda(f, ColorDe(Some(f)))
  }

  /** One legend item per federación of `fs`, in the same order. */
  function Items(fs: seq<string>): (r: seq<ItemLeyenda>)
    ensures |r| == |fs|
    ensures forall i :: 0 <= i < |fs| ==> r[i].federacion == fs[i] && r[i] == ItemDe(fs[i])
  {
    seq(|fs|, i requires 0 <= i < |fs| => ItemDe(fs[i]))
  }

  /** The legend: one entry per distinct non-blank federación of the dataset, in
      sorted order, each with its table colour or the grey fallback. */
  function Leyenda(ts: seq<Tianguis>): (r: seq<ItemLeyenda>)
    ensures forall i, j :: 0 <= i < j < |r| ==> Menor(r[i].federacion, r[j].federacion)
    ensures forall f :: (exists i :: 0 <= i < |r| && r[i].federacion == f) <==>
                        exists t :: t in ts && t.federacion == Some(f) && NoEnBlanco(t.federacion)
    ensures forall i :: 0 <= i < |r| ==>
      r[i].color == if r[i].federacion in COLORES then COLORES[r[i].federacion] else GRIS
  {
    var fs := Federaciones(ts);
    var r := Items(fs);
    assert forall f :: (exists i :: 0 <= i < |r| && r[i].federacion == f) <==> f in fs by {
      forall f | f in fs ensures exists i :: 0 <= i < |r| && r[i].federacion == f {
        var i :| 0 <= i < |fs| && fs[i] == f;
        assert r[i].federacion == f;
      }
    }
    r
  }

  lemma LeyendaEsItems(ts: seq<Tianguis>)
    ensures Leyenda(ts) == Items(Federaciones(ts))
  {
  }

  lemma ItemsAmpliar(fs: seq<string>, i: nat)
    requires i < |fs|
    ensures Items(fs[..i + 1]) == Items(fs[..i]) + [ItemLeyenda(fs[i], ColorDe(Some(fs[i])))]
  {
  }
}
