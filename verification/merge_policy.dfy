/**
 * The merge policy of the aggregate store (`mergeMovies`): a record already
 * stored for a movie is combined with a newly fetched one, attribute by
 * attribute, according to the attribute's type tag.
 */
module MergePolicy {
  import opened PhpStrings
  import opened Movies
  import opened SeqFacts

  /**
   * The value an attribute of type `t` takes when `incoming` is merged into
   * `existing`. Lists: two different lists become their union without
   * repeats; a list replaces a non-list; otherwise the existing value stays.
   * Text: a non-empty value replaces an empty or strictly shorter one.
   */
  function MergeValue(t: AttrType, existing: Value, incoming: Value): Value
    requires t == TypeText ==> !existing.Items? && !incoming.Items?
  {
    match t
    case TypeArray =>
      if existing.Items? && incoming.Items? && existing != incoming then Items(Unique(existing.xs + incoming.xs))
      else if !existing.Items? && incoming.Items? then incoming
      else existing
    case TypeText =>
      if !Empty(incoming) && (Empty(existing) || StrLen(existing) < StrLen(incoming)) then incoming
      else existing
  }

  /** The record `mergeMovies($movie, $newMovie)` returns. */
  function Merged(movie: Record, newMovie: Record): (r: Record)
    requires WellTyped(movie) && WellTyped(newMovie)
    ensures WellTyped(r)
    ensures forall a: Attr :: r[a] == movie[a] || r[a] == newMovie[a] || TypeOf(a) == TypeArray
  {
    AllAttrsListed();
    map a | a in AllAttrs :: MergeValue(TypeOf(a), movie[a], newMovie[a])
  }

  lemma MergedAt(m: Record, n: Record, a: Attr)
    requires WellTyped(m) && WellTyped(n)
    ensures Merged(m, n)[a] == MergeValue(TypeOf(a), m[a], n[a])
  {
    AllAttrsListed();
  }

  /**
   * `mergeMovies`: walks the attributes of the stored record
   * (`get_object_vars($movie)`), assigning the merged value of each
   * attribute in place.
   */
  method MergeMovies(movie: Record, newMovie: Record) returns (r: Record)
    requires WellTyped(movie) && WellTyped(newMovie)
    ensures r == Merged(movie, newMovie)
  {
    r := MergeAttrs(movie, newMovie, AllAttrs);
    MergedOverAll(movie, newMovie);
  }

  /** The `foreach` of `mergeMovies` over the attribute names `attrs`. */
  method MergeAttrs(movie: Record, newMovie: Record, attrs: seq<Attr>) returns (r: Record)
    requires WellTyped(movie) && WellTyped(newMovie)
    ensures r == MergedOver(movie, newMovie, attrs)
  {
    r := movie;
    var i := 0;
    while i < |attrs|
      invariant 0 <= i <= |attrs|
      invariant r == MergedOver(movie, newMovie, attrs[..i])
    {
      var attr := attrs[i];
      var value := movie[attr];
      var newValue := newMovie[attr];
      ghost var before := r;
      ghost var merged := MergeValue(TypeOf(attr), value, newValue);
      MergedOverStep(movie, newMovie, attrs, i);
      MergedOverAt(movie, newMovie, attrs[..i], attr);
      if TypeOf(attr) == TypeArray {
        if value.Items? && newValue.Items? && value != newValue {
          r := r[attr := Items(Unique(value.xs + newValue.xs))];
        } else if !value.Items? && newValue.Items? {
          r := r[attr := newValue];
        }
      } else {
        if !Empty(newValue) && (Empty(value) || StrLen(value) < StrLen(newValue)) {
          r := r[attr := newValue];
        }
      }
      assert r == before[attr := merged] by {
        if r == before {
          UpdateSame(before, attr);
        }
      }
      i := i + 1;
    }
    PrefixAll(attrs);
  }

  lemma UpdateSame<K, V>(m: map<K, V>, k: K)
    requires k in m
    ensures m[k := m[k]] == m
  {
  }

  /** The record after the attributes `attrs` have been merged in place, in order. */
  ghost function MergedOver(m: Record, n: Record, attrs: seq<Attr>): (r: Record)
    requires WellTyped(m) && WellTyped(n)
    ensures Complete(r)
  {
    if attrs == [] then m
    else
      var a := attrs[|attrs| - 1];
      MergedOver(m, n, attrs[..|attrs| - 1])[a := MergeValue(TypeOf(a), m[a], n[a])]
  }

  lemma MergedOverStep(m: Record, n: Record, attrs: seq<Attr>, i: nat)
    requires WellTyped(m) && WellTyped(n) && i < |attrs|
    ensures MergedOver(m, n, attrs[..i + 1])
              == MergedOver(m, n, attrs[..i])[attrs[i] := MergeValue(TypeOf(attrs[i]), m[attrs[i]], n[attrs[i]])]
  {
    assert attrs[..i + 1][..i] == attrs[..i];
  }

  /** An attribute is merged once it has been walked past, and untouched before. */
  lemma {:induction false} MergedOverAt(m: Record, n: Record, attrs: seq<Attr>, a: Attr)
    requires WellTyped(m) && WellTyped(n)
    ensures MergedOver(m, n, attrs)[a] == if a in attrs then MergeValue(TypeOf(a), m[a], n[a]) else m[a]
  {
    if attrs != [] {
      var init := attrs[..|attrs| - 1];
      MergedOverAt(m, n, init, a);
      assert attrs == init + [attrs[|attrs| - 1]];
      assert a in attrs <==> a in init || a == attrs[|attrs| - 1];
    }
  }

  lemma MergedOverAll(m: Record, n: Record)
    requires WellTyped(m) && WellTyped(n)
    ensures MergedOver(m, n, AllAttrs) == Merged(m, n)
  {
    var r := MergedOver(m, n, AllAttrs);
    var merged := Merged(m, n);
    AllAttrsListed();
    forall a: Attr ensures a in merged && r[a] == merged[a] {
      MergedOverAt(m, n, AllAttrs, a);
      MergedAt(m, n, a);
    }
    assert r.Keys == merged.Keys;
  }

  /** Merging a record with an identical copy changes no attribute. */
  lemma MergeIdempotent(m: Record)
    requires WellTyped(m)
    ensures Merged(m, m) == m
  {
    AllAttrsListed();
    forall a: Attr ensures Merged(m, m)[a] == m[a] {
      MergedAt(m, m, a);
    }
  }

  /**
   * A list attribute with two different lists on both sides ends up holding
   * every element of both, each once.
   */
  lemma MergeListsUnion(m: Record, n: Record, a: Attr)
    requires WellTyped(m) && WellTyped(n)
    requires TypeOf(a) == TypeArray && m[a].Items? && n[a].Items? && m[a] != n[a]
    ensures Merged(m, n)[a].Items?
    ensures forall x :: x in Merged(m, n)[a].xs <==> x in m[a].xs || x in n[a].xs
    ensures NoDup(Merged(m, n)[a].xs)
  {
    MergedAt(m, n, a);
  }

  /**
   * A list attribute whose stored value is not a list takes the incoming list
   * as it is; an incoming value that is not a list leaves the stored value.
   */
  lemma MergeListAdopts(m: Record, n: Record, a: Attr)
    requires WellTyped(m) && WellTyped(n)
    requires TypeOf(a) == TypeArray
    ensures !m[a].Items? && n[a].Items? ==> Merged(m, n)[a] == n[a]
    ensures !n[a].Items? ==> Merged(m, n)[a] == m[a]
  {
    MergedAt(m, n, a);
  }

  /**
   * A list attribute never loses an element: whatever the stored list held,
   * the merged list holds too.
   */
  lemma MergeListNeverShrinks(m: Record, n: Record, a: Attr)
    requires WellTyped(m) && WellTyped(n)
    requires TypeOf(a) == TypeArray && m[a].Items?
    ensures Merged(m, n)[a].Items?
    ensures forall x :: x in m[a].xs ==> x in Merged(m, n)[a].xs
  {
    MergedAt(m, n, a);
  }

  /**
   * A text attribute is replaced exactly when the incoming value is
   * non-empty and the stored one is empty or strictly shorter; otherwise,
   * equal lengths included, the stored value stays.
   */
  lemma MergeTextRule(m: Record, n: Record, a: Attr)
    requires WellTyped(m) && WellTyped(n)
    requires TypeOf(a) == TypeText
    ensures !Empty(n[a]) && (Empty(m[a]) || StrLen(m[a]) < StrLen(n[a])) ==> Merged(m, n)[a] == n[a]
    ensures !(!Empty(n[a]) && (Empty(m[a]) || StrLen(m[a]) < StrLen(n[a]))) ==> Merged(m, n)[a] == m[a]
    ensures !Empty(m[a]) && StrLen(m[a]) == StrLen(n[a]) ==> Merged(m, n)[a] == m[a]
  {
    MergedAt(m, n, a);
  }

  /**
   * A text attribute never gets worse: it is non-empty when either side is,
   * and never shorter than the stored value.
   */
  lemma MergeTextNotWorse(m: Record, n: Record, a: Attr)
    requires WellTyped(m) && WellTyped(n)
    requires TypeOf(a) == TypeText
    ensures !Empty(m[a]) || !Empty(n[a]) ==> !Empty(Merged(m, n)[a])
    ensures StrLen(Merged(m, n)[a]) >= StrLen(m[a])
  {
    MergedAt(m, n, a);
  }

  /** Two records for the same id merge into a record with that id. */
  lemma MergeKeepsId(m: Record, n: Record)
    requires WellTyped(m) && WellTyped(n)
    requires m[ImdbId] == n[ImdbId]
    ensures Merged(m, n)[ImdbId] == m[ImdbId]
    ensures Key(Merged(m, n)) == Key(m)
  {
    MergedAt(m, n, ImdbId);
  }

  /**
   * The merge is not commutative: two titles of equal length each keep
   * whichever was stored first.
   */
  lemma MergeNotCommutative()
    ensures exists m: Record, n: Record :: WellTyped(m) && WellTyped(n) && m[ImdbId] == n[ImdbId]
              && Merged(m, n) != Merged(n, m)
  {
    var m := Blank()[Title := Scalar("Titanic")];
    var n := Blank()[Title := Scalar("TITANIC")];
    assert WellTyped(m) && WellTyped(n);
    MergedAt(m, n, Title);
    MergedAt(n, m, Title);
    assert Merged(m, n)[Title] != Merged(n, m)[Title];
  }
}
