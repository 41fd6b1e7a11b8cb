/**
  The page's mutable state: the loaded records, the four filter controls, the
  polygon layer, the legend and the counter, with the operations that update
  them. The map library's layer is abstracted as the sequence of polygons it
  holds; the legend container as the sequence of its items.
 */
module Aplicacion {
  import opened Datos
  import opened Cadenas
  import opened Mapa
  import opened Filtros

  /** The layer's contents after drawing `ts`: one polygon per record, in order. */
  function Capa(ts: seq<Tianguis>): seq<Poligono>
  {
    seq(|ts|, i requires 0 <= i < |ts| => PoligonoDe(ts[i]))
  }

  class Estado {
    /** Every record of the dataset, as loaded. */
    var allTianguis: seq<Tianguis>
    /** The values of the day, type, district and federación selects. */
    var criterios: Criterios
    /** The option lists last derived for the selects. */
    var opciones: Option<OpcionesFiltro>
    /** `polygonsLayer`. */
    var capa: seq<Poligono>
    /** The items of the legend container. */
    var leyenda: seq<ItemLeyenda>
    /** The number the counter shows. */
    var contador: nat

    constructor ()
      ensures allTianguis == [] && criterios == SIN_CRITERIOS && opciones == None
      ensures capa == [] && leyenda == [] && contador == 0
    {
      allTianguis := [];
      criterios := SIN_CRITERIOS;
      opciones := None;
      capa := [];
      leyenda := [];
      contador := 0;
    }

    /** The success path of `cargarDatos`: the fetched list becomes the dataset
        and the page is initialised from it. */
    method CargarDatos(datos: seq<Tianguis>)
      modifies this
      ensures allTianguis == datos && criterios == old(criterios)
      ensures datos == [] ==> opciones == old(opciones)
      ensures datos != [] ==>
        opciones == Some(OpcionesFiltro(Delegaciones(datos), Federaciones(datos), Tipos(datos)))
      ensures capa == Capa(datos) && leyenda == Leyenda(datos)
      ensures contador == |datos| == |capa|
    {
      allTianguis := datos;
      InicializarAplicacion();
    }

    /** Fills the filters, draws every record, builds the legend and shows the
        count. */
    method InicializarAplicacion()
      modifies this
      ensures allTianguis == old(allTianguis) && criterios == old(criterios)
      ensures allTianguis == [] ==> opciones == old(opciones)
      ensures allTianguis != [] ==>
        opciones == Some(OpcionesFiltro(Delegaciones(allTianguis), Federaciones(allTianguis), Tipos(allTianguis)))
      ensures capa == Capa(allTianguis) && leyenda == Leyenda(allTianguis)
      ensures contador == |allTianguis| == |capa|
    {
      var o := LlenarFiltros(allTianguis);
      if o.Some? {
        opciones := o;
      }
      RenderizarTianguis(allTianguis);
      CrearLeyenda();
      ActualizarContador(|allTianguis|);
    }

    /** `renderizarTianguis`: clears the layer, then adds one polygon per
        record, in order, coloured by the table and carrying its popup. Nothing
        of the previous contents survives. */
    method RenderizarTianguis(ts: seq<Tianguis>)
      modifies this`capa
      ensures capa == Capa(ts)
    {
      capa := [];
      for i := 0 to |ts|
        invariant |capa| == i
        invariant forall k :: 0 <= k < i ==> capa[k] == PoligonoDe(ts[k])
      {
        var t := ts[i];
        var color := ColorDe(t.federacion);
        var popup := CrearPopupContent(t, color);
        capa := capa + [Poligono(t.coordenadas, color, popup)];
      }
    }

    /** `crearLeyenda`: empties the container, then appends one item per
        distinct non-blank federación. The result depends only on the dataset,
        so rebuilding the legend is idempotent. */
    method CrearLeyenda()
      modifies this`leyenda
      ensures leyenda == Leyenda(allTianguis)
    {
      leyenda := [];
      var federaciones := Federaciones(allTianguis);
      for i := 0 to |federaciones|
        invariant leyenda == Items(federaciones[..i])
      {
        var f := federaciones[i];
        var color := ColorDe(Some(f));
        ItemsAmpliar(federaciones, i);
        leyenda := leyenda + [ItemLeyenda(f, color)];
      }
      assert federaciones[..|federaciones|] == federaciones;
      LeyendaEsItems(allTianguis);
    }

    /** `filtrarTianguis`: draws the records meeting the current controls and
        shows how many there are. */
    method FiltrarTianguis()
      modifies this`capa, this`contador
      ensures capa == Capa(Filtrar(allTianguis, criterios))
      ensures contador == |Filtrar(allTianguis, criterios)| == |capa|
    {
      var filtrados := Filtrar(allTianguis, criterios);
      RenderizarTianguis(filtrados);
      ActualizarContador(|filtrados|);
    }

    /** `reiniciarFiltros`: clears the four controls and draws every record,
        which is exactly what filtering with the cleared controls draws. */
    method ReiniciarFiltros()
      modifies this`criterios, this`capa, this`contador
      ensures criterios == SIN_CRITERIOS
      ensures capa == Capa(allTianguis) == Capa(Filtrar(allTianguis, criterios))
      ensures contador == |allTianguis| == |capa|
    {
      criterios := SIN_CRITERIOS;
      RenderizarTianguis(allTianguis);
      ActualizarContador(|allTianguis|);
      FiltrarSinCriterios(allTianguis);
    }

    /** `actualizarContador`. */
    method ActualizarContador(cantidad: nat)
      modifies this`contador
      ensures contador == cantidad
    {
      contador := cantidad;
    }
  }

  // ---------------------------------------------------------------------------
  // Worked examples on two records `a` and `b`, fixed only in the fields each
  // example reads: `a` has the federación UCTEQ and a list of types, `b` a
  // blank federación, a single string type and an empty coordinate list.
  // ---------------------------------------------------------------------------

  /** District options of two records. */
  lemma EjemploDelegaciones(a: Tianguis, b: Tianguis)
    requires a.delegacion == "X" && b.delegacion == "Y"
    ensures Delegaciones([a, b]) == ["X", "Y"]
  {
    assert forall t :: t in [a, b] <==> t == a || t == b;
    assert Menor("X", "Y");
    OrdenadaUnica(Delegaciones([a, b]), ["X", "Y"]);
  }

  /** A string starting with a character other than whitespace is not blank. */
  lemma NoEnBlancoPorPrimero(f: string)
    requires f != "" && !EsEspacio(f[0])
    ensures NoEnBlanco(Some(f))
  {
    NoEnBlancoSii(Some(f));
  }

  /** The blank federación is left out of the options ... */
  lemma EjemploFederaciones(a: Tianguis, b: Tianguis)
    requires a.federacion == Some("UCTEQ") && b.federacion == Some("")
    ensures Federaciones([a, b]) == ["UCTEQ"]
  {
    NoEnBlancoPorPrimero(a.federacion.value);
    assert forall t :: t in [a, b] <==> t == a || t == b;
    assert forall f :: f in Federaciones([a, b]) <==> f == "UCTEQ";
    OrdenadaUnica(Federaciones([a, b]), ["UCTEQ"]);
  }

  /** ... and of the legend, whose one entry has the table's colour. */
  lemma EjemploLeyenda(a: Tianguis, b: Tianguis)
    requires a.federacion == Some("UCTEQ") && b.federacion == Some("")
    ensures Leyenda([a, b]) == [ItemLeyenda("UCTEQ", "#FF6B6B")]
  {
    EjemploFederaciones(a, b);
    LeyendaEsItems([a, b]);
    var it := Items(["UCTEQ"]);
    assert |it| == 1 && it[0] == ItemDe("UCTEQ");
    ColoresPropios();
  }

  /** The tags of a list-valued and of a string-valued `tipo` are merged. */
  lemma EjemploTipos(a: Tianguis, b: Tianguis)
    requires a.tipo == Lista(["ropa", "comida"]) && b.tipo == Cadena("comida")
    ensures Tipos([a, b]) == ["comida", "ropa"]
  {
    assert forall t :: t in [a, b] <==> t == a || t == b;
    assert Menor("comida", "ropa");
    assert forall x :: x in Tipos([a, b]) <==> x == "comida" || x == "ropa";
    OrdenadaUnica(Tipos([a, b]), ["comida", "ropa"]);
  }

  /** A string-valued `tipo` passes a type criterion by substring. */
  lemma EjemploCumpleCadena(b: Tianguis)
    requires b.tipo == Cadena("comida")
    ensures !Cumple(b, Criterios("", "ropa", "", ""))
    ensures Cumple(b, Criterios("", "comida", "", ""))
  {
    assert !Incluye("comida", "ropa") by {
      forall i | 0 <= i <= 2 ensures !OcurreEn("comida", "ropa", i) {
        assert "comida"[i] != 'r';
      }
    }
    assert Incluye("comida", "comida") by { assert OcurreEn("comida", "comida", 0); }
  }

  /** Filtering by type: exact membership for the list, substring for the string. */
  lemma EjemploFiltrar(a: Tianguis, b: Tianguis)
    requires a.tipo == Lista(["ropa", "comida"]) && b.tipo == Cadena("comida")
    ensures Filtrar([a, b], Criterios("", "ropa", "", "")) == [a]
    ensures Filtrar([a, b], Criterios("", "comida", "", "")) == [a, b]
  {
    EjemploCumpleCadena(b);
    assert Cumple(a, Criterios("", "ropa", "", ""));
    assert Cumple(a, Criterios("", "comida", "", ""));
    assert [a, b][1..] == [b] && [b][1..] == [];
  }

  /** Both records are drawn, the one with an empty coordinate list included;
      the blank federación is not a key of the table and is drawn grey. */
  lemma EjemploCapa(a: Tianguis, b: Tianguis)
    requires a.federacion == Some("UCTEQ") && b.federacion == Some("") && b.coordenadas == []
    ensures |Capa([a, b])| == 2
    ensures Capa([a, b])[0].color == "#FF6B6B" && Capa([a, b])[1].color == GRIS
    ensures Capa([a, b])[1].coordenadas == []
  {
    ColoresPropios();
    ColorGrisSiiSinColorPropio(b.federacion);
  }
}
