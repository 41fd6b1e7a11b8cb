/**
  The three pieces of JavaScript's string behaviour the market pipeline relies on:
  `String.prototype.includes` (substring test), `String.prototype.trim` (used to
  recognise blank federaciones) and the default `Array.prototype.sort` order
  combined with `new Set(...)` (sorted, duplicate-free option lists).
 */
module Cadenas {

  // ---------------------------------------------------------------------------
  // Substring test: s.includes(sub)
  // ---------------------------------------------------------------------------

  /** `sub` occurs in `s` starting at position `i`. */
  ghost predicate OcurreEn(s: string, sub: string, i: int)
  {
    0 <= i && i + |sub| <= |s| && s[i..i + |sub|] == sub
  }

  /** JavaScript's `s.includes(sub)`: true iff `sub` is a contiguous piece of `s`
      (the empty string is contained in every string). */
  function Incluye(s: string, sub: string): (r: bool)
    ensures r <==> exists i :: OcurreEn(s, sub, i)
    decreases |s|
  {
    if |sub| > |s| then
      assert forall i :: !OcurreEn(s, sub, i);
      false
    else if s[..|sub|] == sub then
      assert OcurreEn(s, sub, 0);
      true
    else
      var r := Incluye(s[1..], sub);
      assert forall i :: OcurreEn(s[1..], sub, i) ==> OcurreEn(s, sub, i + 1) by {
        forall i | OcurreEn(s[1..], sub, i) ensures OcurreEn(s, sub, i + 1) {
          assert s[1..][i..i + |sub|] == s[i + 1..i + 1 + |sub|];
        }
      }
      assert forall i :: OcurreEn(s, sub, i) ==> OcurreEn(s[1..], sub, i - 1) by {
        forall i | OcurreEn(s, sub, i) ensures OcurreEn(s[1..], sub, i - 1) {
          assert i != 0;
          assert s[1..][i - 1..i - 1 + |sub|] == s[i..i + |sub|];
        }
      }
      r
  }

  // ---------------------------------------------------------------------------
  // Whitespace and trim: f.trim() !== ''
  // ---------------------------------------------------------------------------

  /** The characters ECMAScript's `trim` removes: WhiteSpace and LineTerminator. */
  predicate EsEspacio(c: char)
  {
    || c == '\t' || c == '\n' || c == '\U{000B}' || c == '\U{000C}' || c == '\r'
    || c == ' ' || c == '\U{00A0}' || c == '\U{1680}'
    || ('\U{2000}' <= c <= '\U{200A}')
    || c == '\U{2028}' || c == '\U{2029}' || c == '\U{202F}' || c == '\U{205F}'
    || c == '\U{3000}' || c == '\U{FEFF}'
  }

  ghost predicate TodoEspacio(s: string)
  {
    forall i :: 0 <= i < |s| ==> EsEspacio(s[i])
  }

  /** Drops leading whitespace. */
  function RecortarInicio(s: string): (r: string)
    ensures |r| <= |s| && r == s[|s| - |r|..]
    ensures r == [] || !EsEspacio(r[0])
    ensures TodoEspacio(r) <==> TodoEspacio(s)
    decreases |s|
  {
    if s != [] && EsEspacio(s[0]) then
      var r := RecortarInicio(s[1..]);
      assert TodoEspacio(s) <==> TodoEspacio(s[1..]) by {
        if TodoEspacio(s[1..]) {
          forall i | 0 <= i < |s| ensures EsEspacio(s[i]) {
            if i > 0 { assert s[i] == s[1..][i - 1]; }
          }
        }
      }
      r
    else
      s
  }

  /** Drops trailing whitespace. */
  function RecortarFinal(s: string): (r: string)
    ensures |r| <= |s| && r == s[..|r|]
    ensures r == [] <==> TodoEspacio(s)
    decreases |s|
  {
    if s != [] && EsEspacio(s[|s| - 1]) then
      var r := RecortarFinal(s[..|s| - 1]);
      assert TodoEspacio(s) <==> TodoEspacio(s[..|s| - 1]) by {
        if TodoEspacio(s[..|s| - 1]) {
          forall i | 0 <= i < |s| ensures EsEspacio(s[i]) {
            if i < |s| - 1 { assert s[i] == s[..|s| - 1][i]; }
          }
        }
      }
      r
    else
      assert s != [] ==> !TodoEspacio(s);
      s
  }

  /** JavaScript's `s.trim()`: the string is empty exactly when `s` was blank. */
  function Recortar(s: string): (r: string)
    ensures r == [] <==> TodoEspacio(s)
  {
    RecortarFinal(RecortarInicio(s))
  }

  // ---------------------------------------------------------------------------
  // The default sort order and sorted distinct lists: [...new Set(xs)].sort()
  // ---------------------------------------------------------------------------

  /** Strict lexicographic order on strings, character by character. */
  predicate Menor(a: string, b: string)
    decreases |a|
  {
    if |a| == 0 then |b| > 0
    else if |b| == 0 then false
    else if a[0] != b[0] then a[0] < b[0]
    else Menor(a[1..], b[1..])
  }

  lemma {:induction false} MenorIrreflexivo(a: string)
    ensures !Menor(a, a)
    decreases |a|
  {
    if |a| > 0 { MenorIrreflexivo(a[1..]); }
  }

  lemma {:induction false} MenorTransitivo(a: string, b: string, c: string)
    requires Menor(a, b) && Menor(b, c)
    ensures Menor(a, c)
    decreases |a|
  {
    if |a| > 0 && a[0] == b[0] && b[0] == c[0] {
      MenorTransitivo(a[1..], b[1..], c[1..]);
    }
  }

  lemma {:induction false} MenorTotal(a: string, b: string)
    requires a != b
    ensures Menor(a, b) || Menor(b, a)
    decreases |a|
  {
    if |a| > 0 && |b| > 0 && a[0] == b[0] {
      MenorTotal(a[1..], b[1..]);
    }
  }

  lemma {:induction false} MenorAsimetrico(a: string, b: string)
    requires Menor(a, b)
    ensures !Menor(b, a)
  {
    if Menor(b, a) {
      MenorTransitivo(a, b, a);
      MenorIrreflexivo(a);
    }
  }

  /** Strictly increasing: sorted and free of duplicates. */
  ghost predicate Ordenada(s: seq<string>)
  {
    forall i, j :: 0 <= i < j < |s| ==> Menor(s[i], s[j])
  }

  ghost predicate SinRepetidos<T>(s: seq<T>)
  {
    forall i, j :: 0 <= i < j < |s| ==> s[i] != s[j]
  }

  lemma OrdenadaSinRepetidos(s: seq<string>)
    requires Ordenada(s)
    ensures SinRepetidos(s)
  {
    forall i, j | 0 <= i < j < |s| ensures s[i] != s[j] {
      if s[i] == s[j] { MenorIrreflexivo(s[i]); }
    }
  }

  /** Adds `x` to a strictly increasing list unless it is already there. */
  function InsertarOrdenado(x: string, s: seq<string>): (r: seq<string>)
    requires Ordenada(s)
    ensures Ordenada(r)
    ensures forall y :: y in r <==> y == x || y in s
    decreases |s|
  {
    if s == [] then [x]
    else if x == s[0] then s
    else if Menor(x, s[0]) then
      assert forall j :: 0 < j < |s| ==> Menor(x, s[j]) by {
        forall j | 0 < j < |s| ensures Menor(x, s[j]) { MenorTransitivo(x, s[0], s[j]); }
      }
      [x] + s
    else
      MenorTotal(x, s[0]);
      var t := InsertarOrdenado(x, s[1..]);
      assert forall y :: y in t ==> Menor(s[0], y);
      [s[0]] + t
  }

  /** `[...new Set(xs)].sort()`: the distinct elements of `xs` in increasing order. */
  function OrdenarUnicos(xs: seq<string>): (r: seq<string>)
    ensures Ordenada(r)
    ensures forall y :: y in r <==> y in xs
    decreases |xs|
  {
    if xs == [] then []
    else InsertarOrdenado(xs[0], OrdenarUnicos(xs[1..]))
  }

  /** A strictly increasing list is determined by its elements: whatever order
      the distinct values were collected in, the sorted result is the same. */
  lemma {:induction false} OrdenadaUnica(a: seq<string>, b: seq<string>)
    requires Ordenada(a) && Ordenada(b)
    requires forall y :: y in a <==> y in b
    ensures a == b
    decreases |a|
  {
    if a != [] { assert a[0] in b; }
    if b != [] { assert b[0] in a; }
    if a != [] && b != [] {
      if a[0] != b[0] {
        assert a[0] in a && b[0] in b;
        var j :| 0 <= j < |b| && b[j] == a[0];
        var k :| 0 <= k < |a| && a[k] == b[0];
        assert Menor(b[0], a[0]) && Menor(a[0], b[0]);
        MenorAsimetrico(a[0], b[0]);
      }
      forall y ensures y in a[1..] <==> y in b[1..] {
        if y in a[1..] {
          var i :| 1 <= i < |a| && a[i] == y;
          assert Menor(a[0], a[i]);
          if y == b[0] { MenorIrreflexivo(y); }
          assert y in b;
        }
        if y in b[1..] {
          var i :| 1 <= i < |b| && b[i] == y;
          assert Menor(b[0], b[i]);
          if y == a[0] { MenorIrreflexivo(y); }
          assert y in a;
        }
      }
      OrdenadaUnica(a[1..], b[1..]);
      assert a == [a[0]] + a[1..] && b == [b[0]] + b[1..];
    }
  }

  /** `OrdenarUnicos` depends only on which values occur, not on their order or
      multiplicity. */
  lemma OrdenarUnicosMismosElementos(xs: seq<string>, ys: seq<string>)
    requires forall y :: y in xs <==> y in ys
    ensures OrdenarUnicos(xs) == OrdenarUnicos(ys)
  {
    OrdenadaUnica(OrdenarUnicos(xs), OrdenarUnicos(ys));
  }

  // ---------------------------------------------------------------------------
  // Array.prototype.toString: the elements joined with ","
  // ---------------------------------------------------------------------------

  /** `xs.join(sep)`: the elements with `sep` between neighbours. */
  function Unir(xs: seq<string>, sep: string): (r: string)
    ensures xs == [] ==> r == ""
    ensures |xs| == 1 ==> r == xs[0]
    ensures |xs| == 2 ==> r == xs[0] + sep + xs[1]
    decreases |xs|
  {
    if xs == [] then ""
    else if |xs| == 1 then xs[0]
    else xs[0] + sep + Unir(xs[1..], sep)
  }

  /** Appending an element to a non-empty list appends the separator and the
      element to the joined text, so the separator sits between every pair of
      neighbours. */
  lemma {:induction false} UnirAgregar(xs: seq<string>, x: string, sep: string)
    requires xs != []
    ensures Unir(xs + [x], sep) == Unir(xs, sep) + sep + x
    decreases |xs|
  {
    if |xs| > 1 {
      assert (xs + [x])[1..] == xs[1..] + [x];
      UnirAgregar(xs[1..], x, sep);
    }
  }

  /** The joined text is as long as the elements together plus one separator
      per pair of neighbours. */
  function LongitudTotal(xs: seq<string>): nat
  {
    if xs == [] then 0 else |xs[0]| + LongitudTotal(xs[1..])
  }

  lemma {:induction false} UnirLongitud(xs: seq<string>, sep: string)
    requires xs != []
    ensures |Unir(xs, sep)| == LongitudTotal(xs) + (|xs| - 1) * |sep|
    decreases |xs|
  {
    if |xs| > 1 { UnirLongitud(xs[1..], sep); }
  }
}
