/**
  The charging-point connector of the first-generation places models. The
  general search reports a connector's kind as `connectorType`, the EV
  search as `type`; the deserialization hook copies whichever one is set
  into the other so that, afterwards, both read the same.
 */
module Places {
  import opened Common

  /** The connector kinds the service reports (each member's value is its wire string). */
  datatype ConnectorType =
    | StandardHouseholdCountrySpecific
    | IEC62196Type1
    | IEC62196Type1CCS
    | IEC62196Type2CableAttached
    | IEC62196Type2Outlet
    | IEC62196Type2CCS
    | IEC62196Type3
    | Chademo
    | GBT20234Part2
    | GBT20234Part3
    | IEC60309AC3PhaseRed
    | IEC60309AC1PhaseBlue
    | IEC60309DCWhite
    | Tesla

  datatype CurrentType = AC1 | AC3 | DC

  /**
    The `(type, connectorType)` pair after reconciliation. A field that is
    set is never overwritten; when exactly one of the two is set, both end
    up holding it; a pair with both set, or both unset, stays as it was.
   */
  function Reconcile(t: Option<ConnectorType>, c: Option<ConnectorType>)
    : (r: (Option<ConnectorType>, Option<ConnectorType>))
    ensures t.Some? ==> r.0 == t
    ensures c.Some? ==> r.1 == c
    ensures t.Some? != c.Some? ==> r.0 == r.1 && r.0.Some?
    ensures r.0.None? <==> t.None? && c.None?
    ensures r.1.None? <==> t.None? && c.None?
  {
    if t.Some? && c.None? then (t, t)
    else if c.Some? && t.None? then (c, c)
    else (t, c)
  }

  /** Reconciling an already reconciled pair changes nothing. */
  lemma ReconcileIdempotent(t: Option<ConnectorType>, c: Option<ConnectorType>)
    ensures Reconcile(Reconcile(t, c).0, Reconcile(t, c).1) == Reconcile(t, c)
  {
  }

  /**
    Two differing kinds are kept as they are: the hook does not decide
    between a general-search and an EV-search value.
   */
  lemma ConflictKept(a: ConnectorType, b: ConnectorType)
    requires a != b
    ensures Reconcile(Some(a), Some(b)) == (Some(a), Some(b))
    ensures Reconcile(Some(a), Some(b)).0 != Reconcile(Some(a), Some(b)).1
  {
  }

  /** A deserialized connector; `typ` is the source's `type` field. */
  class Connector {
    var id: Option<string>
    var typ: Option<ConnectorType>
    var connectorType: Option<ConnectorType>
    var ratedPowerKW: real
    var voltageV: Option<int>
    var currentA: Option<int>
    var currentType: CurrentType

    constructor (id: Option<string>, typ: Option<ConnectorType>, connectorType: Option<ConnectorType>,
                 ratedPowerKW: real, voltageV: Option<int>, currentA: Option<int>, currentType: CurrentType)
      ensures this.id == id && this.typ == typ && this.connectorType == connectorType
      ensures this.ratedPowerKW == ratedPowerKW && this.voltageV == voltageV
      ensures this.currentA == currentA && this.currentType == currentType
    {
      this.id := id;
      this.typ := typ;
      this.connectorType := connectorType;
      this.ratedPowerKW := ratedPowerKW;
      this.voltageV := voltageV;
      this.currentA := currentA;
      this.currentType := currentType;
    }

    /** The two kind fields read the same, or the connector arrived with two different kinds. */
    predicate KindsAgree()
      reads this
    {
      typ == connectorType || (typ.Some? && connectorType.Some?)
    }

    /**
      `__post_deserialize__`: reconciles `type` and `connectorType` in
      place, touches no other field, and returns the same object.
     */
    static method PostDeserialize(obj: Connector) returns (r: Connector)
      modifies obj
      ensures r == obj
      ensures (obj.typ, obj.connectorType) == Reconcile(old(obj.typ), old(obj.connectorType))
      ensures obj.KindsAgree()
      ensures obj.id == old(obj.id) && obj.ratedPowerKW == old(obj.ratedPowerKW)
      ensures obj.voltageV == old(obj.voltageV) && obj.currentA == old(obj.currentA)
      ensures obj.currentType == old(obj.currentType)
    {
      if obj.typ.Some? && obj.connectorType.None? {
        obj.connectorType := obj.typ;
      } else if obj.connectorType.Some? && obj.typ.None? {
        obj.typ := obj.connectorType;
      }
      r := obj;
    }
  }

  /** Running the hook a second time leaves the connector as the first run left it. */
  method PostDeserializeTwice(obj: Connector)
    modifies obj
    ensures (obj.typ, obj.connectorType) == Reconcile(old(obj.typ), old(obj.connectorType))
  {
    var once := Connector.PostDeserialize(obj);
    ghost var t1, c1 := obj.typ, obj.connectorType;
    var twice := Connector.PostDeserialize(once);
    assert (obj.typ, obj.connectorType) == Reconcile(t1, c1);
    ReconcileIdempotent(old(obj.typ), old(obj.connectorType));
  }
}
