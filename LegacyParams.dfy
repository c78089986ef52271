/**
  The first-generation query-parameter record (`BaseParams` of the
  `tomtom_api` package): `to_dict` turns the record's fields into a flat
  string map, and `from_dict` copies a dictionary onto the object's
  attributes.
 */
module LegacyParams {
  import opened Common
  import opened Values

  /** The renderings `str(elem)` of the elements of a list, in order. */
  function PyStrs(xs: seq<Scalar>): (r: seq<string>)
    ensures |r| == |xs|
    ensures forall i :: 0 <= i < |xs| ==> r[i] == PyStr(xs[i])
  {
    seq(|xs|, i requires 0 <= i < |xs| => PyStr(xs[i]))
  }

  /**
    `format_value`: an Enum becomes its value, a bool "true"/"false", a list
    the comma-join of `str()` of its elements, anything else `str()`.
   */
  function FormatValue(v: Value): string
    requires v != Null
  {
    match v
    case Val(Enum(_, _, wire)) => wire
    case Val(Bool(b)) => BoolWire(b)
    case List(xs) => Join(PyStrs(xs), ',')
    case Val(x) => PyStr(x)
  }

  /**
    `to_dict` over the record's fields (the result of `asdict`): exactly the
    fields that are neither None nor an empty list are kept, each formatted.
   */
  function Encode(fields: map<string, Value>): (r: map<string, string>)
    ensures forall k :: k in r <==> k in fields && Present(fields[k])
    ensures forall k :: k in fields && Present(fields[k]) ==> r[k] == FormatValue(fields[k])
  {
    map k | k in fields && Present(fields[k]) :: FormatValue(fields[k])
  }

  /** The record of the `to_dict` tests with every field set (`key` left at None). */
  const AllFieldsSet: map<string, Value> := map[
    "key" := Null,
    "field1" := Val(Int(123)),
    "field2" := Val(Str("test")),
    "field3" := Val(Bool(true)),
    "field4" := Val(Other("45.67")),
    "field5" := List([Str("a"), Str("b"), Str("c")]),
    "field6" := List([Int(1), Int(2), Int(3)])]

  /** The record of the `to_dict` tests with some fields None. */
  const SomeFieldsNone: map<string, Value> := map[
    "key" := Null,
    "field1" := Val(Int(123)),
    "field2" := Null,
    "field3" := Val(Bool(false)),
    "field4" := Null,
    "field5" := List([Str("x"), Str("y")]),
    "field6" := Null]

  /** `str(123)` is "123". */
  lemma Decimal123()
    ensures IntToDecimal(123) == "123"
  {
    assert NatToDecimal(12) == "12";
  }

  /** The list fields of the `to_dict` fixture with every field set, comma-joined. */
  lemma FixtureListsAllSet()
    ensures FormatValue(List([Str("a"), Str("b"), Str("c")])) == "a,b,c"
    ensures FormatValue(List([Int(1), Int(2), Int(3)])) == "1,2,3"
  {
    assert PyStrs([Str("a"), Str("b"), Str("c")]) == ["a", "b", "c"];
    assert Join(["a", "b", "c"], ',') == "a,b,c";
    assert PyStrs([Int(1), Int(2), Int(3)]) == ["1", "2", "3"];
    assert Join(["1", "2", "3"], ',') == "1,2,3";
  }

  /** The list field of the `to_dict` fixture with some fields None, comma-joined. */
  lemma FixtureListSomeNone()
    ensures FormatValue(List([Str("x"), Str("y")])) == "x,y"
  {
    assert PyStrs([Str("x"), Str("y")]) == ["x", "y"];
    assert Join(["x", "y"], ',') == "x,y";
  }

  /** The keys `to_dict` sends for the record with every field set: all but the None `key`. */
  lemma AllFieldsSetKeys()
    ensures Encode(AllFieldsSet).Keys == {"field1", "field2", "field3", "field4", "field5", "field6"}
  {
  }

  /** The scalar values `to_dict` sends for the record with every field set. */
  lemma AllFieldsSetScalars()
    ensures var r := Encode(AllFieldsSet);
      && "field1" in r && r["field1"] == "123"
      && "field2" in r && r["field2"] == "test"
      && "field3" in r && r["field3"] == "true"
      && "field4" in r && r["field4"] == "45.67"
  {
    var f := AllFieldsSet;
    assert f["field1"] == Val(Int(123)) && f["field2"] == Val(Str("test"));
    assert f["field3"] == Val(Bool(true)) && f["field4"] == Val(Other("45.67"));
    Decimal123();
  }

  /** The list values `to_dict` sends for the record with every field set. */
  lemma AllFieldsSetLists()
    ensures var r := Encode(AllFieldsSet);
      && "field5" in r && r["field5"] == "a,b,c"
      && "field6" in r && r["field6"] == "1,2,3"
  {
    var f := AllFieldsSet;
    assert f["field5"] == List([Str("a"), Str("b"), Str("c")]);
    assert f["field6"] == List([Int(1), Int(2), Int(3)]);
    FixtureListsAllSet();
  }

  /**
    The expected output of the `to_dict` test with every field set: an int
    goes out in decimal, a str as itself, a bool lowercased, a float as its
    `str()`, a list comma-joined; the None `key` is not sent.
   */
  lemma ToDictAllFieldsSet()
    ensures Encode(AllFieldsSet) == map[
      "field1" := "123", "field2" := "test", "field3" := "true", "field4" := "45.67",
      "field5" := "a,b,c", "field6" := "1,2,3"]
  {
    AllFieldsSetKeys();
    AllFieldsSetScalars();
    AllFieldsSetLists();
  }

  /** The keys `to_dict` sends for the record with some fields None: exactly the others. */
  lemma SomeFieldsNoneKeys()
    ensures Encode(SomeFieldsNone).Keys == {"field1", "field3", "field5"}
  {
  }

  /** The values `to_dict` sends for the record with some fields None. */
  lemma SomeFieldsNoneValues()
    ensures var r := Encode(SomeFieldsNone);
      && "field1" in r && r["field1"] == "123"
      && "field3" in r && r["field3"] == "false"
      && "field5" in r && r["field5"] == "x,y"
  {
    var f := SomeFieldsNone;
    assert f["field1"] == Val(Int(123)) && f["field3"] == Val(Bool(false));
    assert f["field5"] == List([Str("x"), Str("y")]);
    Decimal123();
    FixtureListSomeNone();
  }

  /** The expected output of the `to_dict` test with some fields None: only the others are sent. */
  lemma ToDictSomeFieldsNone()
    ensures Encode(SomeFieldsNone) == map["field1" := "123", "field3" := "false", "field5" := "x,y"]
  {
    SomeFieldsNoneKeys();
    SomeFieldsNoneValues();
  }

  /** A one-element list is sent as that element's `str()`, with no separator added. */
  lemma FormatSingletonList(x: Scalar)
    ensures FormatValue(List([x])) == PyStr(x)
  {
  }

  /**
    A list whose element renderings contain no comma is sent with exactly
    n - 1 commas, and splitting the wire string at the commas gives back the
    element renderings in order.
   */
  lemma {:induction false} FormatListRoundTrip(xs: seq<Scalar>)
    requires |xs| >= 1
    requires NoSeparator(PyStrs(xs), ',')
    ensures multiset(FormatValue(List(xs)))[','] == |xs| - 1
    ensures Split(FormatValue(List(xs)), ',') == PyStrs(xs)
  {
    JoinSeparatorCount(PyStrs(xs), ',');
    SplitJoin(PyStrs(xs), ',');
  }

  /**
    As written, a list of enum members is sent as Python's `str()` of each
    member, the class-qualified name, and not as its value: a
    `connectorSet` of `[ConnectorType.IEC62196_TYPE1]` goes out as
    "ConnectorType.IEC62196_TYPE1" where the service expects "IEC62196Type1".
   */
  lemma EnumListSentAsClassNames()
    ensures FormatValue(List([Enum("ConnectorType", "IEC62196_TYPE1", "IEC62196Type1")]))
         == "ConnectorType.IEC62196_TYPE1"
    ensures FormatValue(List([Enum("ConnectorType", "IEC62196_TYPE1", "IEC62196Type1")]))
         != FormatValue(Val(Enum("ConnectorType", "IEC62196_TYPE1", "IEC62196Type1")))
  {
    assert FormatValue(Val(Enum("ConnectorType", "IEC62196_TYPE1", "IEC62196Type1")))[0] == 'I';
  }

  /** Falsy values other than None and the empty list (False, 0, "") are still sent. */
  lemma FalsyValuesKept(fields: map<string, Value>, k: string)
    requires k in fields
    requires fields[k] in {Val(Bool(false)), Val(Int(0)), Val(Str(""))}
    ensures k in Encode(fields)
    ensures fields[k] == Val(Bool(false)) ==> Encode(fields)[k] == "false"
    ensures fields[k] == Val(Int(0)) ==> Encode(fields)[k] == "0"
    ensures fields[k] == Val(Str("")) ==> Encode(fields)[k] == ""
  {
  }

  /** A record whose fields are all None (or empty lists) is sent as no parameters at all. */
  lemma AllAbsentIsEmpty(fields: map<string, Value>)
    requires forall k :: k in fields ==> !Present(fields[k])
    ensures Encode(fields) == map[]
  {
    assert Encode(fields).Keys == {};
  }

  /**
    A parameter object. `fields` are the dataclass's declared fields, always
    including `key`; `attrs` is the instance's attribute dictionary, which
    `from_dict` may extend with names that are not declared fields.
   */
  class Params {
    const fields: set<string>
    var attrs: map<string, Value>

    ghost predicate Valid()
      reads this
    {
      "key" in fields && fields <= attrs.Keys
    }

    /**
      Keyword construction: only declared fields may be given, every
      `required` field (one declared without a default, such as `id` of the
      EV search-by-id parameters) must be given, and every other declared
      field defaults to None.
     */
    constructor (fields: set<string>, required: set<string>, given: map<string, Value>)
      requires "key" in fields
      requires given.Keys <= fields
      requires required <= given.Keys
      ensures Valid()
      ensures this.fields == fields
      ensures attrs == map k | k in fields :: if k in given then given[k] else Null
    {
      this.fields := fields;
      attrs := map k | k in fields :: if k in given then given[k] else Null;
    }

    /** `asdict(self)`: the declared fields only, with their current values. */
    function AsDict(): (r: map<string, Value>)
      reads this
      requires Valid()
      ensures r.Keys == fields
      ensures forall k :: k in r ==> r[k] == attrs[k]
    {
      map k | k in fields :: attrs[k]
    }

    /** `to_dict()`: the wire parameters of the object's current declared fields. */
    function ToDict(): (r: map<string, string>)
      reads this
      requires Valid()
      ensures forall k :: k in r <==> k in fields && Present(attrs[k])
      ensures forall k :: k in fields && Present(attrs[k]) ==> r[k] == FormatValue(attrs[k])
    {
      Encode(AsDict())
    }

    /**
      `from_dict(data)`: sets every key of `data` as an attribute (declared
      or not), leaves every other attribute as it was, and returns the same
      object.
     */
    method FromDict(data: map<string, Value>) returns (self: Params)
      requires Valid()
      modifies this
      ensures Valid()
      ensures self == this
      ensures attrs == old(attrs) + data
    {
      var todo := data.Keys;
      while todo != {}
        invariant todo <= data.Keys
        invariant fields <= attrs.Keys
        invariant attrs == old(attrs) + map k | k in data && k !in todo :: data[k]
        decreases todo
      {
        var k :| k in todo;
        attrs := attrs[k := data[k]];
        todo := todo - {k};
      }
      assert (map k | k in data && k !in todo :: data[k]) == data;
      self := this;
    }
  }
}
