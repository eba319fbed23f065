/**
 * The mapping from a provider's raw fields to a movie record
 * (`mapToMovieInfo`, written the same way in the TMDb client and the IMDb
 * suggestion client): a record is made only when the provider's id field is
 * present and non-empty, and each mapped raw value is coerced to the type of
 * its attribute.
 */
module FieldMapping {
  import opened PhpStrings
  import opened PhpValues
  import opened Movies
  import opened Apis

  /**
   * `in_array($v, array(null, ''))` with PHP 8's loose comparison: null,
   * false, a zero number, the empty string and the empty array (a decoded
   * object is an associative array here). The string "0" is not blank: it
   * equals neither null nor ''.
   */
  predicate LooselyBlank(j: Json)
  {
    match j
    case Null => true
    case Bool(b) => !b
    case Num(lit) => ZeroForm(lit)
    case Str(s) => s == ""
    case List(items) => items == []
    case Object(entries) => entries == []
  }

  /** `array_map('trim', $pieces)`. */
  function TrimAll(pieces: seq<string>): (r: seq<string>)
    ensures |r| == |pieces|
    ensures forall i :: 0 <= i < |pieces| ==> r[i] == Trim(pieces[i])
  {
    seq(|pieces|, i requires 0 <= i < |pieces| => Trim(pieces[i]))
  }

  /** The string forms of the elements of an array. */
  function StrForms(items: seq<Json>): (r: seq<string>)
    ensures |r| == |items|
    ensures forall i :: 0 <= i < |items| ==> r[i] == StrForm(items[i])
  {
    seq(|items|, i requires 0 <= i < |items| => StrForm(items[i]))
  }

  function AsStrings(xs: seq<string>): (r: seq<Json>)
    ensures |r| == |xs|
    ensures forall i :: 0 <= i < |xs| ==> r[i] == Str(xs[i])
  {
    seq(|xs|, i requires 0 <= i < |xs| => Str(xs[i]))
  }

  /**
   * The raw value after coercion to an attribute of type `t`: a non-array
   * for a list attribute is split on the delimiter and each piece trimmed;
   * an array for a text attribute is joined with the delimiter; any other
   * string is trimmed; anything else is kept.
   */
  function Coerce(t: AttrType, v: Json): (r: Json)
    ensures t == TypeArray ==> IsArray(r)
    ensures t == TypeText ==> !IsArray(r)
    ensures t == TypeArray && IsArray(v) ==> r == v
    ensures t == TypeArray && !IsArray(v) ==> r == List(AsStrings(TrimAll(Explode(Delimiter, StrForm(v)))))
    ensures t == TypeText && IsArray(v) ==> r == Str(Implode([Delimiter], StrForms(Values(v))))
    ensures t == TypeText && !IsArray(v) ==> (v.Str? ==> r == Str(Trim(v.s))) && (!v.Str? ==> r == v)
  {
    if t == TypeArray && !IsArray(v) then List(AsStrings(TrimAll(Explode(Delimiter, StrForm(v)))))
    else if t == TypeText && IsArray(v) then Str(Implode([Delimiter], StrForms(Values(v))))
    else if v.Str? then Str(Trim(v.s))
    else v
  }

  /** A mapping entry is applied: the raw field name is truthy and its value set and not blank. */
  predicate Applies(field: string, data: Dict)
  {
    field != "" && field != "0" && IsSet(data, field) && !LooselyBlank(data[field])
  }

  /**
   * The record after applying the mapping entries from index `i` on; each
   * applied entry also writes the coerced value back into the raw data.
   */
  function MapFrom(model: Record, data: Dict, mapping: seq<(Attr, string)>, i: nat): (r: Record)
    requires i <= |mapping|
    requires WellTyped(model)
    ensures WellTyped(r)
    decreases |mapping| - i
  {
    if i == |mapping| then model
    else MapFrom(Assigned(model, data, mapping[i]), Written(data, mapping[i]), mapping, i + 1)
  }

  /** The record after one mapping entry: the attribute gets the coerced raw value when the entry applies. */
  function Assigned(model: Record, data: Dict, entry: (Attr, string)): (r: Record)
    requires WellTyped(model)
    ensures WellTyped(r)
  {
    if Applies(entry.1, data) then model[entry.0 := AsValue(Coerce(TypeOf(entry.0), data[entry.1]))] else model
  }

  /** The raw data after one mapping entry: the coerced value is written back when the entry applies. */
  function Written(data: Dict, entry: (Attr, string)): (r: Dict)
    ensures r.Keys == data.Keys
    ensures forall k :: k in data && k != entry.1 ==> r[k] == data[k]
  {
    if Applies(entry.1, data) then data[entry.1 := Coerce(TypeOf(entry.0), data[entry.1])] else data
  }

  /** The empty model a provider starts from: every attribute null, `apis` naming the provider. */
  function Initial(name: string): (r: Movie)
    ensures r[Apis] == Items([name])
    ensures forall a: Attr :: a != Apis ==> r[a] == Unset
  {
    Blank()[Apis := Items([name])]
  }

  /** The id field is present and not empty. */
  predicate HasId(data: Dict, idField: string)
  {
    IsSet(data, idField) && Truthy(data[idField])
  }

  /** The record `mapToMovieInfo` returns, or None for null. */
  function Mapped(name: string, idField: string, mapping: seq<(Attr, string)>, data: Dict): (r: Option<Movie>)
  {
    if HasId(data, idField) then Some(MapFrom(Initial(name), data, mapping, 0)) else None
  }

  /**
   * `mapToMovieInfo($data)`: null without an id; otherwise a fresh model
   * naming the provider, with each mapped attribute assigned in table order.
   */
  method MapToMovieInfo(name: string, idField: string, mapping: seq<(Attr, string)>, data: Dict)
    returns (r: Option<Movie>)
    ensures r == Mapped(name, idField, mapping, data)
    ensures r.None? <==> !IsSet(data, idField) || !Truthy(data[idField])
  {
    if !IsSet(data, idField) || !Truthy(data[idField]) {
      return None;
    }
    var model: Record := Initial(name);
    var raw := data;
    var i := 0;
    while i < |mapping|
      invariant 0 <= i <= |mapping|
      invariant WellTyped(model)
      invariant MapFrom(model, raw, mapping, i) == MapFrom(Initial(name), data, mapping, 0)
    {
      model, raw := Assigned(model, raw, mapping[i]), Written(raw, mapping[i]);
      i := i + 1;
    }
    return Some(model);
  }

  /** Attribute `attr` is the target of no mapping entry from index `i` on. */
  predicate Untargeted(mapping: seq<(Attr, string)>, attr: Attr, i: nat)
  {
    forall j :: i <= j < |mapping| ==> mapping[j].0 != attr
  }

  lemma {:induction false} MapFromUntargeted(model: Record, data: Dict, mapping: seq<(Attr, string)>, i: nat, attr: Attr)
    requires i <= |mapping| && WellTyped(model)
    requires Untargeted(mapping, attr, i)
    ensures MapFrom(model, data, mapping, i)[attr] == model[attr]
    decreases |mapping| - i
  {
    if i < |mapping| {
      var next := Assigned(model, data, mapping[i]);
      assert next[attr] == model[attr];
      MapFromUntargeted(next, Written(data, mapping[i]), mapping, i + 1, attr);
    }
  }

  lemma {:induction false} MapFromTargeted(model: Record, data: Dict, mapping: seq<(Attr, string)>, i: nat, k: nat)
    requires i <= k < |mapping| && WellTyped(model)
    requires Untargeted(mapping, mapping[k].0, k + 1)
    requires forall j :: i <= j < k ==> mapping[j].0 != mapping[k].0 && mapping[j].1 != mapping[k].1
    ensures MapFrom(model, data, mapping, i)[mapping[k].0] == Assigned(model, data, mapping[k])[mapping[k].0]
    decreases k - i
  {
    var next := Assigned(model, data, mapping[i]);
    var nextData := Written(data, mapping[i]);
    if i < k {
      var field := mapping[k].1;
      assert mapping[i].1 != field && mapping[i].0 != mapping[k].0;
      assert (field in nextData) == (field in data);
      assert field in data ==> nextData[field] == data[field];
      assert Applies(field, nextData) == Applies(field, data);
      assert next[mapping[k].0] == model[mapping[k].0];
      MapFromTargeted(next, nextData, mapping, i + 1, k);
    } else {
      MapFromUntargeted(next, nextData, mapping, k + 1, mapping[k].0);
    }
  }

  /**
   * The mapped record: None exactly when the id field is missing or empty;
   * otherwise `apis` names the provider, an attribute no entry targets stays
   * null, and an attribute targeted by one entry, whose raw field no earlier
   * entry reads, holds the coerced raw value when that value is set and not
   * blank, and stays null otherwise.
   */
  lemma MappedAttributes(name: string, idField: string, mapping: seq<(Attr, string)>, data: Dict, k: nat)
    requires Untargeted(mapping, Apis, 0)
    ensures Mapped(name, idField, mapping, data).None? <==> !HasId(data, idField)
    ensures HasId(data, idField) ==> Mapped(name, idField, mapping, data).value[Apis] == Items([name])
    ensures HasId(data, idField) ==>
              forall a: Attr :: a != Apis && Untargeted(mapping, a, 0) ==> Mapped(name, idField, mapping, data).value[a] == Unset
    ensures HasId(data, idField) && k < |mapping| && Untargeted(mapping, mapping[k].0, k + 1)
            && (forall j :: 0 <= j < k ==> mapping[j].0 != mapping[k].0 && mapping[j].1 != mapping[k].1) ==>
              Mapped(name, idField, mapping, data).value[mapping[k].0]
                == if Applies(mapping[k].1, data) then AsValue(Coerce(TypeOf(mapping[k].0), data[mapping[k].1])) else Unset
  {
    if HasId(data, idField) {
      MapFromUntargeted(Initial(name), data, mapping, 0, Apis);
      forall a: Attr | a != Apis && Untargeted(mapping, a, 0)
        ensures Mapped(name, idField, mapping, data).value[a] == Unset
      {
        MapFromUntargeted(Initial(name), data, mapping, 0, a);
      }
      if k < |mapping| && Untargeted(mapping, mapping[k].0, k + 1)
         && (forall j :: 0 <= j < k ==> mapping[j].0 != mapping[k].0 && mapping[j].1 != mapping[k].1) {
        MapFromTargeted(Initial(name), data, mapping, 0, k);
        assert mapping[k].0 != Apis;
      }
    }
  }

  lemma TrimAllIdentity(pieces: seq<string>)
    requires forall i :: 0 <= i < |pieces| ==> Trim(pieces[i]) == pieces[i]
    ensures TrimAll(pieces) == pieces
  {
    var trimmed := TrimAll(pieces);
    assert forall i :: 0 <= i < |pieces| ==> trimmed[i] == pieces[i];
  }

  /**
   * A list attribute filled from a string whose comma-separated pieces carry
   * no surrounding blanks holds exactly those pieces, and they join back to
   * the string.
   */
  lemma CoercedListJoinsBack(s: string)
    requires forall i :: 0 <= i < |Explode(Delimiter, s)| ==> Trim(Explode(Delimiter, s)[i]) == Explode(Delimiter, s)[i]
    ensures Coerce(TypeArray, Str(s)) == List(AsStrings(Explode(Delimiter, s)))
    ensures Implode([Delimiter], Explode(Delimiter, s)) == s
  {
    var pieces := Explode(Delimiter, s);
    TrimAllIdentity(pieces);
    assert StrForm(Str(s)) == s;
    assert !IsArray(Str(s));
    assert Coerce(TypeArray, Str(s)) == List(AsStrings(TrimAll(pieces)));
    ImplodeExplode(Delimiter, s);
  }

  /**
   * One mapping entry seen on its own: the attribute it targets, when no
   * later entry targets it again and no earlier entry shares its attribute
   * or its raw field, holds the coerced raw value when that value is set and
   * not blank, and stays null otherwise.
   */
  lemma MappedEntry(name: string, idField: string, mapping: seq<(Attr, string)>, data: Dict, k: nat, attr: Attr, field: string)
    requires HasId(data, idField) && attr != Apis
    requires k < |mapping| && mapping[k] == (attr, field)
    requires Untargeted(mapping, attr, k + 1)
    requires forall j :: 0 <= j < k ==> mapping[j].0 != attr && mapping[j].1 != field
    ensures Mapped(name, idField, mapping, data).Some?
    ensures Mapped(name, idField, mapping, data).value[attr]
              == if Applies(field, data) then AsValue(Coerce(TypeOf(attr), data[field])) else Unset
  {
    MapFromTargeted(Initial(name), data, mapping, 0, k);
  }

  /** A string assigned to a text attribute is held trimmed. */
  lemma CoercedText(attr: Attr, s: string)
    requires TypeOf(attr) == TypeText
    ensures AsValue(Coerce(TypeOf(attr), Str(s))) == Scalar(Trim(s))
  {
    assert Coerce(TypeOf(attr), Str(s)) == Str(Trim(s));
  }

  /** A one-element list assigned to a list attribute is held as that element's string form. */
  lemma CoercedSingleton(attr: Attr, x: Json)
    requires TypeOf(attr) == TypeArray
    ensures AsValue(Coerce(TypeOf(attr), List([x]))) == Items([StrForm(x)])
  {
    assert Coerce(TypeOf(attr), List([x])) == List([x]);
  }
}
