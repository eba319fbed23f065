/**
 * The canonical movie record: the `MovieInfo` model that every provider fills
 * in and that the aggregate store merges. The model class is not part of the
 * sources modelled here; its attributes and their type table are declared
 * from the attributes the providers map.
 */
module Movies {
  import opened PhpStrings
  import opened PhpValues

  /** The attributes of a movie record. */
  datatype Attr =
    | ImdbId | Title | Aka | Year | Runtime | Plot | Genres | Images | Trailers
    | Directors | Writers | Actors | Rating | Votes | Apis

  /** The type tag of an attribute: a text value or a list of values. */
  datatype AttrType = TypeText | TypeArray

  /** The attribute type table (`MovieInfo::$attributesType`). */
  function TypeOf(a: Attr): AttrType
  {
    match a
    case Aka | Genres | Images | Trailers | Directors | Writers | Actors | Apis => TypeArray
    case _ => TypeText
  }

  /** Every attribute once, in declaration order (`get_object_vars`). */
  const AllAttrs: seq<Attr> :=
    [ImdbId, Title, Aka, Year, Runtime, Plot, Genres, Images, Trailers,
     Directors, Writers, Actors, Rating, Votes, Apis]

  lemma AllAttrsListed()
    ensures forall a: Attr :: a in AllAttrs
  {
    forall a: Attr ensures a in AllAttrs {
      match a
      case ImdbId => assert AllAttrs[0] == a;
      case Title => assert AllAttrs[1] == a;
      case Aka => assert AllAttrs[2] == a;
      case Year => assert AllAttrs[3] == a;
      case Runtime => assert AllAttrs[4] == a;
      case Plot => assert AllAttrs[5] == a;
      case Genres => assert AllAttrs[6] == a;
      case Images => assert AllAttrs[7] == a;
      case Trailers => assert AllAttrs[8] == a;
      case Directors => assert AllAttrs[9] == a;
      case Writers => assert AllAttrs[10] == a;
      case Actors => assert AllAttrs[11] == a;
      case Rating => assert AllAttrs[12] == a;
      case Votes => assert AllAttrs[13] == a;
      case Apis => assert AllAttrs[14] == a;
    }
  }

  /**
   * The value of one attribute: unset (null), a scalar held as PHP's string
   * form of it, or a list whose elements are held as their string forms.
   */
  datatype Value = Unset | Scalar(s: string) | Items(xs: seq<string>)

  /** PHP `empty()` on an attribute value. */
  predicate Empty(v: Value)
  {
    match v
    case Unset => true
    case Scalar(s) => s == "" || s == "0"
    case Items(xs) => xs == []
  }

  /** PHP `strlen` on a non-array attribute value (null has length 0). */
  function StrLen(v: Value): nat
    requires !v.Items?
  {
    if v.Scalar? then |v.s| else 0
  }

  /** What an attribute holds once a decoded JSON value is assigned to it. */
  function AsValue(j: Json): (v: Value)
    ensures j.Null? <==> v.Unset?
    ensures IsArray(j) <==> v.Items?
    ensures v.Items? ==> |v.xs| == |Values(j)|
    ensures Truthy(j) <==> !Empty(v)
  {
    if j.Null? then Unset
    else if IsArray(j) then
      var vs := Values(j);
      Items(seq(|vs|, i requires 0 <= i < |vs| => StrForm(vs[i])))
    else Scalar(StrForm(j))
  }

  /** A movie record: a value for each attribute. */
  type Record = map<Attr, Value>

  /** Every attribute has a value (possibly Unset). */
  ghost predicate Complete(r: Record)
  {
    forall a: Attr :: a in r
  }

  /**
   * A record whose values fit their type tags: text attributes never hold a
   * list and list attributes never hold a scalar.
   */
  ghost predicate WellTyped(r: Record)
  {
    && Complete(r)
    && (forall a: Attr :: TypeOf(a) == TypeText ==> !r[a].Items?)
    && (forall a: Attr :: TypeOf(a) == TypeArray ==> !r[a].Scalar?)
  }

  /** A freshly constructed model: every attribute null. */
  function Blank(): (r: Record)
    ensures WellTyped(r)
    ensures forall a: Attr :: r[a] == Unset
  {
    AllAttrsListed();
    map a | a in AllAttrs :: Unset
  }

  /** A record whose values fit their type tags, as every provider builds them. */
  type Movie = r: Record | WellTyped(r) witness Blank()

  /** The array key a record is stored under: `$movie->imdbId` (null becomes ""). */
  function Key(r: Record): string
    requires ImdbId in r && !r[ImdbId].Items?
  {
    if r[ImdbId].Scalar? then r[ImdbId].s else ""
  }
}
