/**
  The second-generation query-parameter record (`BaseParams` of the
  `tomtom_apis` package) and the serializers of `tomtom_apis.utils`.
  Serialization goes per declared type: bool through `serialize_bool`, int
  and float through `str`, an Enum to its value, a list through
  `serialize_list` (or `serialize_list_brackets` where a field asks for it);
  None stays None. `__post_serialize__` then drops every None entry, which
  is how an empty list, serialized to None, disappears from the request.
 */
module CurrentParams {
  import opened Common
  import opened Values
  import LegacyParams

  /** `serialize_bool(x)`: `str(x).lower()`. */
  function SerializeBool(x: bool): (r: string)
    ensures r == (if x then "true" else "false")
  {
    BoolWire(x)
  }

  /** One list element: a bool lowercased, an Enum its value, anything else `str()`. */
  function RenderItem(x: Scalar): string
  {
    if x.Bool? then SerializeBool(x.b) else if x.Enum? then x.wire else PyStr(x)
  }

  /** The renderings of the elements of a list, in order. */
  function RenderItems(xs: seq<Scalar>): (r: seq<string>)
    ensures |r| == |xs|
    ensures forall i :: 0 <= i < |xs| ==> r[i] == RenderItem(xs[i])
  {
    seq(|xs|, i requires 0 <= i < |xs| => RenderItem(xs[i]))
  }

  /** `serialize_list(x)`: None for an empty list, else the comma-join of the element renderings. */
  function SerializeList(xs: seq<Scalar>): (r: Option<string>)
    ensures r.None? <==> xs == []
  {
    if xs == [] then None else Some(Join(RenderItems(xs), ','))
  }

  /** `serialize_list_brackets(x)`: the `serialize_list` result wrapped in "[" and "]", or None. */
  function SerializeListBrackets(xs: seq<Scalar>): (r: Option<string>)
    ensures r.None? <==> SerializeList(xs).None?
    ensures r.Some? ==>
      |r.value| >= 2 && r.value[0] == '[' && r.value[|r.value| - 1] == ']' &&
      r.value[1..|r.value| - 1] == SerializeList(xs).value
  {
    var inner := SerializeList(xs);
    if inner.Some? then
      var s := "[" + inner.value + "]";
      assert s[1..|s| - 1] == inner.value;
      Some(s)
    else None
  }

  /**
    The element order of a list survives serialization: splitting the wire
    string at the commas gives back the element renderings, provided none of
    them contains a comma, and there are n - 1 commas.
   */
  lemma {:induction false} SerializeListRoundTrip(xs: seq<Scalar>)
    requires xs != []
    requires NoSeparator(RenderItems(xs), ',')
    ensures SerializeList(xs).Some?
    ensures Split(SerializeList(xs).value, ',') == RenderItems(xs)
    ensures multiset(SerializeList(xs).value)[','] == |xs| - 1
  {
    SplitJoin(RenderItems(xs), ',');
    JoinSeparatorCount(RenderItems(xs), ',');
  }

  /**
    The expected output of the `serialize_list` tests on a mixed list with
    an Enum: the member goes out as its value and the bool lowercased, and
    the bracket variant wraps the same string.
   */
  lemma SerializeListEnumIntBool()
    ensures SerializeList([Enum("Color", "RED", "red"), Int(1), Bool(true)]) == Some("red,1,true")
    ensures SerializeListBrackets([Enum("Color", "RED", "red"), Int(1), Bool(true)]) == Some("[red,1,true]")
  {
    var xs := [Enum("Color", "RED", "red"), Int(1), Bool(true)];
    assert RenderItem(xs[0]) == "red" && RenderItem(xs[1]) == "1" && RenderItem(xs[2]) == "true";
    assert RenderItems(xs) == ["red", "1", "true"];
    assert Join(["red", "1", "true"], ',') == "red,1,true";
    assert "[" + "red,1,true" + "]" == "[red,1,true]";
  }

  /** A str reading "True" is sent unchanged, while the bool False is lowercased. */
  lemma SerializeListStrAndBool()
    ensures SerializeList([Str("True"), Bool(false)]) == Some("True,false")
  {
    var xs := [Str("True"), Bool(false)];
    assert RenderItem(xs[0]) == "True" && RenderItem(xs[1]) == "false";
    assert RenderItems(xs) == ["True", "false"];
    assert Join(["True", "false"], ',') == "True,false";
  }

  /** A list of integers is sent as their decimals, comma-joined. */
  lemma SerializeListInts()
    ensures SerializeList([Int(1), Int(2), Int(3)]) == Some("1,2,3")
  {
    var xs := [Int(1), Int(2), Int(3)];
    assert RenderItem(xs[0]) == "1" && RenderItem(xs[1]) == "2" && RenderItem(xs[2]) == "3";
    assert RenderItems(xs) == ["1", "2", "3"];
    assert Join(["1", "2", "3"], ',') == "1,2,3";
  }

  /** Field metadata: whether the field uses `serialize_list_brackets` instead of `serialize_list`. */
  datatype Strategy = Plain | Brackets

  /** The per-type serialization strategy applied to one field (None passes through as None). */
  function SerializeField(v: Value, strategy: Strategy): Option<string>
  {
    match v
    case Null => None
    case Val(Bool(b)) => Some(SerializeBool(b))
    case Val(Enum(_, _, wire)) => Some(wire)
    case Val(x) => Some(PyStr(x))
    case List(xs) => if strategy == Brackets then SerializeListBrackets(xs) else SerializeList(xs)
  }

  /** `__post_serialize__`: removes exactly the None entries and keeps all others unchanged. */
  function PostSerialize(d: map<string, Option<string>>): (r: map<string, string>)
    ensures forall k :: k in r <==> k in d && d[k].Some?
    ensures forall k :: k in r ==> d[k] == Some(r[k])
  {
    map k | k in d && d[k].Some? :: d[k].value
  }

  /** A field serializes to a string exactly when it is neither None nor an empty list. */
  lemma SerializeFieldPresent(v: Value, strategy: Strategy)
    ensures SerializeField(v, strategy).Some? <==> Present(v)
  {
    if v.List? && strategy == Brackets {
      assert SerializeField(v, strategy) == SerializeListBrackets(v.xs);
    }
  }

  /** The strategy of a field: `Brackets` exactly for the fields listed as bracketed. */
  function StrategyOf(k: string, bracketed: set<string>): Strategy
  {
    if k in bracketed then Brackets else Plain
  }

  /**
    `to_dict()` of a parameter record: serialize every field with its
    strategy, then drop the None entries. A field is sent exactly when it is
    neither None nor an empty list.
   */
  function ToDict(fields: map<string, Value>, bracketed: set<string>): (r: map<string, string>)
    ensures forall k :: k in r <==> k in fields && Present(fields[k])
    ensures forall k :: k in r ==> Some(r[k]) == SerializeField(fields[k], StrategyOf(k, bracketed))
  {
    var d := map k | k in fields :: SerializeField(fields[k], StrategyOf(k, bracketed));
    var r := PostSerialize(d);
    forall k | k in fields
      ensures d[k].Some? <==> Present(fields[k])
    {
      SerializeFieldPresent(fields[k], StrategyOf(k, bracketed));
    }
    r
  }

  /** Both generations send exactly the same set of parameter names for the same record. */
  lemma SameKeysAsLegacy(fields: map<string, Value>, bracketed: set<string>)
    ensures ToDict(fields, bracketed).Keys == LegacyParams.Encode(fields).Keys
  {
  }

  /** On single (non-list) values both generations send the same string. */
  lemma ScalarsAgreeWithLegacy(fields: map<string, Value>, bracketed: set<string>, k: string)
    requires k in fields && fields[k].Val?
    ensures k in ToDict(fields, bracketed) && k in LegacyParams.Encode(fields)
    ensures ToDict(fields, bracketed)[k] == LegacyParams.Encode(fields)[k]
  {
  }

  /**
    A list of enum members is sent as the members' wire values, in order:
    splitting the wire string at the commas gives back exactly the values
    (when none contains a comma). This is the rendering the first generation
    evidently intended and misses (see LegacyParams.EnumListSentAsClassNames).
   */
  lemma {:induction false} EnumListSentByValue(xs: seq<Scalar>)
    requires xs != []
    requires forall i :: 0 <= i < |xs| ==> xs[i].Enum? && ',' !in xs[i].wire
    ensures SerializeList(xs).Some?
    ensures Split(SerializeList(xs).value, ',') == seq(|xs|, i requires 0 <= i < |xs| => xs[i].wire)
  {
    assert RenderItems(xs) == seq(|xs|, i requires 0 <= i < |xs| => xs[i].wire);
    SerializeListRoundTrip(xs);
  }
}
