/** EVSE identifiers in the eMI3 string format: builder, normal form, parser and grouping. */
module RoamingUtils {
  import opened Prelude
  import opened Text

  datatype Connector = Connector(connectorId: int, chargePointID: Option<int>)

  datatype ChargePoint = ChargePoint(chargePointID: int, cannotChargeInParallel: bool)

  /** Arrays may be missing, and may hold empty entries. */
  datatype ChargingStation = ChargingStation(
    id: string,
    connectors: Option<seq<Option<Connector>>>,
    chargePoints: Option<seq<Option<ChargePoint>>>)

  datatype EvseIdComponents = EvseIdComponents(countryCode: string, partyId: Option<string>, connectorId: string)

  function FindConnector(connectors: seq<Option<Connector>>, connectorID: int): (r: Option<Connector>)
    ensures r.Some? ==> Some(r.value) in connectors && r.value.connectorId == connectorID
    ensures r.None? ==> forall c <- connectors :: c.Some? ==> c.value.connectorId != connectorID
  {
    if connectors == [] then None
    else if connectors[0].Some? && connectors[0].value.connectorId == connectorID then connectors[0]
    else FindConnector(connectors[1..], connectorID)
  }

  function FindChargePoint(chargePoints: seq<Option<ChargePoint>>, chargePointID: int): (r: Option<ChargePoint>)
    ensures r.Some? ==> Some(r.value) in chargePoints && r.value.chargePointID == chargePointID
    ensures r.None? ==> forall c <- chargePoints :: c.Some? ==> c.value.chargePointID != chargePointID
  {
    if chargePoints == [] then None
    else if chargePoints[0].Some? && chargePoints[0].value.chargePointID == chargePointID then chargePoints[0]
    else FindChargePoint(chargePoints[1..], chargePointID)
  }

  function GetConnectorFromID(station: ChargingStation, connectorID: int): Option<Connector> {
    if station.connectors.None? then None else FindConnector(station.connectors.value, connectorID)
  }

  function GetChargePointFromID(station: ChargingStation, chargePointID: int): Option<ChargePoint> {
    if station.chargePoints.None? then None else FindChargePoint(station.chargePoints.value, chargePointID)
  }

  /** The charge point whose connectors share one EVSE with this connector; 0 counts as none. */
  function SharedChargePoint(station: ChargingStation, connector: Connector): Option<int> {
    if connector.chargePointID.None? || connector.chargePointID.value == 0 then None
    else
      var chargePoint := GetChargePointFromID(station, connector.chargePointID.value);
      if chargePoint.Some? && chargePoint.value.cannotChargeInParallel then Some(chargePoint.value.chargePointID)
      else None
  }

  function BuildOperatorName(countryCode: string, partyId: string): string {
    countryCode + "*" + partyId
  }

  /** An unknown connector makes the access to `connector.chargePointID` throw. */
  function BuildEvseUID(station: ChargingStation, connectorID: int): Result<string> {
    var connector := GetConnectorFromID(station, connectorID);
    if connector.None? then Err("connector is undefined")
    else
      var shared := SharedChargePoint(station, connector.value);
      Ok(station.id
         + if shared.Some? then "*CP" + Decimal(shared.value) else "*" + Decimal(connector.value.connectorId))
  }

  function BuildEvseID(countryCode: string, partyId: string, station: ChargingStation,
                       connectorID: int): Result<string> {
    var evse := BuildOperatorName(countryCode, partyId) + "*E" + station.id;
    var connector := GetConnectorFromID(station, connectorID);
    if connector.None? then Err("connector is undefined")
    else
      var shared := SharedChargePoint(station, connector.value);
      Ok(Normal(evse + if shared.Some? then "*CP" + Decimal(shared.value) else "*" + Decimal(connectorID)))
  }

  function BuildEvseConnectorID(countryCode: string, partyId: string, station: ChargingStation,
                                connectorID: int): string {
    Normal(BuildOperatorName(countryCode, partyId) + "*E" + station.id + "*" + Decimal(connectorID))
  }

  function GetEvseIdComponents(evseID: string): EvseIdComponents {
    var evseIdList := Split(evseID, '*');
    EvseIdComponents(
      evseIdList[0], if |evseIdList| > 1 then Some(evseIdList[1]) else None, evseIdList[|evseIdList| - 1])
  }

  // ---------------------------------------------------------------------------------
  // The normal form: replace(/[\W_]+/g, '*').toUpperCase()
  // ---------------------------------------------------------------------------------

  /** Each maximal run of other characters becomes one '*'; `inRun` says one has just begun. */
  function Collapse(s: string, inRun: bool): (r: string)
    ensures forall c <- r :: IsAlnum(c) || c == '*'
  {
    if s == "" then ""
    else if IsAlnum(s[0]) then [s[0]] + Collapse(s[1..], false)
    else (if inRun then "" else "*") + Collapse(s[1..], true)
  }

  function Normal(s: string): string {
    Upper(Collapse(s, false))
  }

  function RunAfter(s: string, inRun: bool): bool {
    if s == "" then inRun else !IsAlnum(s[|s| - 1])
  }

  lemma {:induction false} CollapseAppend(a: string, b: string, inRun: bool)
    ensures Collapse(a + b, inRun) == Collapse(a, inRun) + Collapse(b, RunAfter(a, inRun))
  {
    if a == "" {
      assert a + b == b;
    } else {
      assert (a + b)[1..] == a[1..] + b && (a + b)[0] == a[0];
      var inNext := !IsAlnum(a[0]);
      CollapseAppend(a[1..], b, inNext);
      assert RunAfter(a, inRun) == RunAfter(a[1..], inNext);
      var first := if IsAlnum(a[0]) then [a[0]] else if inRun then "" else "*";
      var x, y := Collapse(a[1..], inNext), Collapse(b, RunAfter(a, inRun));
      assert first + (x + y) == (first + x) + y;
    }
  }

  lemma {:induction false} CollapseAlnum(s: string, inRun: bool)
    requires AllAlnum(s)
    ensures Collapse(s, inRun) == s
  {
    if s != "" {
      CollapseAlnum(s[1..], false);
      assert [s[0]] + s[1..] == s;
    }
  }

  predicate SingleStars(s: string) {
    forall i, j :: 0 <= i && j == i + 1 < |s| ==> s[i] != '*' || s[j] != '*'
  }

  /** In normal form: upper-case letters, digits and single stars. */
  predicate IsNormal(s: string) {
    (forall c <- s :: c == '*' || 'A' <= c <= 'Z' || IsDigit(c)) && SingleStars(s)
  }

  lemma {:induction false} CollapseSingleStars(s: string, inRun: bool)
    ensures var r := Collapse(s, inRun);
            SingleStars(r) && (inRun && r != "" ==> r[0] != '*')
  {
    if s != "" {
      CollapseSingleStars(s[1..], !IsAlnum(s[0]));
    }
  }

  lemma TailNormal(s: string)
    requires IsNormal(s) && s != ""
    ensures IsNormal(s[1..]) && (s[0] == '*' || 'A' <= s[0] <= 'Z' || IsDigit(s[0]))
    ensures s[0] == '*' && s[1..] != "" ==> s[1..][0] != '*'
  {
    assert s[0] in s;
    assert forall i :: 0 <= i < |s| - 1 ==> s[1..][i] == s[i + 1];
    forall i, j | 0 <= i && j == i + 1 < |s[1..]|
      ensures s[1..][i] != '*' || s[1..][j] != '*'
    {
      assert s[i + 1] != '*' || s[j + 1] != '*';
    }
    assert forall c <- s[1..] :: c in s;
  }

  lemma UpperFixed(s: string)
    requires IsNormal(s)
    ensures Upper(s) == s
  {
    forall i | 0 <= i < |s|
      ensures Upper(s)[i] == s[i]
    {
      assert s[i] in s;
    }
  }

  lemma {:induction false} NormalFixed(s: string, inRun: bool)
    requires IsNormal(s) && (inRun && s != "" ==> s[0] != '*')
    ensures Collapse(s, inRun) == s
  {
    if s != "" {
      TailNormal(s);
      NormalFixed(s[1..], s[0] == '*');
      assert [s[0]] + s[1..] == s;
      assert IsAlnum(s[0]) <==> s[0] != '*';
    }
  }

  /** Every id built is in normal form, and normalising again changes nothing. */
  lemma NormalIsNormal(s: string)
    ensures IsNormal(Normal(s)) && Normal(Normal(s)) == Normal(s)
  {
    CollapseSingleStars(s, false);
    var r := Collapse(s, false);
    forall i | 0 <= i < |r|
      ensures Normal(s)[i] == '*' || 'A' <= Normal(s)[i] <= 'Z' || IsDigit(Normal(s)[i])
      ensures Normal(s)[i] == '*' <==> r[i] == '*'
    {
      assert r[i] in r;
    }
    NormalFixed(Normal(s), false);
    UpperFixed(Normal(s));
  }

  /** Letters and digits are kept, in upper case, and every other character becomes a star. */
  lemma NormalOfOne(c: char)
    ensures Normal([c]) ==
              if 'a' <= c <= 'z' || 'A' <= c <= 'Z' || '0' <= c <= '9' then [UpperChar(c)] else "*"
  {
    assert [c][1..] == "";
    assert Collapse([c], false) == if IsAlnum(c) then [c] else "*";
    assert UpperChar('*') == '*';
  }

  // ---------------------------------------------------------------------------------
  // Grouping connectors into EVSEs
  // ---------------------------------------------------------------------------------

  /** The charge point two connectors have to share to be one EVSE, if there is one. */
  function EvseGroup(station: ChargingStation, connectorID: int): Option<int>
    requires GetConnectorFromID(station, connectorID).Some?
  {
    SharedChargePoint(station, GetConnectorFromID(station, connectorID).value)
  }

  /** The first entry with that id is the k-th. */
  predicate ConnectorAt(station: ChargingStation, connectorID: int, k: nat) {
    && station.connectors.Some? && k < |station.connectors.value|
    && station.connectors.value[k].Some? && station.connectors.value[k].value.connectorId == connectorID
    && forall j :: 0 <= j < k && station.connectors.value[j].Some? ==>
         station.connectors.value[j].value.connectorId != connectorID
  }

  predicate ChargePointAt(station: ChargingStation, chargePointID: int, k: nat) {
    && station.chargePoints.Some? && k < |station.chargePoints.value|
    && station.chargePoints.value[k].Some? && station.chargePoints.value[k].value.chargePointID == chargePointID
    && forall j :: 0 <= j < k && station.chargePoints.value[j].Some? ==>
         station.chargePoints.value[j].value.chargePointID != chargePointID
  }

  /** The first entry for the charge point is the k-th, and it cannot charge in parallel. */
  predicate SharesAt(station: ChargingStation, chargePointID: int, k: nat) {
    ChargePointAt(station, chargePointID, k) && station.chargePoints.value[k].value.cannotChargeInParallel
  }

  lemma {:induction false} FindsFirstConnector(connectors: seq<Option<Connector>>, id: int) returns (k: nat)
    requires FindConnector(connectors, id).Some?
    ensures k < |connectors| && connectors[k] == FindConnector(connectors, id)
    ensures forall j :: 0 <= j < k && connectors[j].Some? ==> connectors[j].value.connectorId != id
  {
    if connectors[0].Some? && connectors[0].value.connectorId == id {
      k := 0;
    } else {
      k := FindsFirstConnector(connectors[1..], id);
      k := k + 1;
    }
  }

  lemma {:induction false} FindsFirstChargePoint(chargePoints: seq<Option<ChargePoint>>, id: int) returns (k: nat)
    requires FindChargePoint(chargePoints, id).Some?
    ensures k < |chargePoints| && chargePoints[k] == FindChargePoint(chargePoints, id)
    ensures forall j :: 0 <= j < k && chargePoints[j].Some? ==> chargePoints[j].value.chargePointID != id
  {
    if chargePoints[0].Some? && chargePoints[0].value.chargePointID == id {
      k := 0;
    } else {
      k := FindsFirstChargePoint(chargePoints[1..], id);
      k := k + 1;
    }
  }

  lemma FoundIsAt(station: ChargingStation, connectorID: int) returns (k: nat)
    requires GetConnectorFromID(station, connectorID).Some?
    ensures ConnectorAt(station, connectorID, k)
  {
    k := FindsFirstConnector(station.connectors.value, connectorID);
  }

  /**
    The k-th entry is the connector: its group is its charge point if that is not 0, and the
    first entry for it cannot charge in parallel.
   */
  lemma GroupIff(station: ChargingStation, connectorID: int, k: nat, p: int)
    requires ConnectorAt(station, connectorID, k)
    ensures GetConnectorFromID(station, connectorID) == station.connectors.value[k]
    ensures EvseGroup(station, connectorID) == Some(p) <==>
              && station.connectors.value[k].value.chargePointID == Some(p) && p != 0
              && exists m: nat :: SharesAt(station, p, m)
  {
    var connectors := station.connectors.value;
    assert connectors[k] in connectors;
    var l := FindsFirstConnector(connectors, connectorID);
    assert k == l;
    if connectors[k].value.chargePointID == Some(p) && GetChargePointFromID(station, p).Some? {
      var m := FindsFirstChargePoint(station.chargePoints.value, p);
      assert ChargePointAt(station, p, m);
      assert station.chargePoints.value[m].value.cannotChargeInParallel ==> SharesAt(station, p, m);
    }
    if exists m: nat :: SharesAt(station, p, m) {
      var m: nat :| SharesAt(station, p, m);
      assert station.chargePoints.value[m] in station.chargePoints.value;
      var l := FindsFirstChargePoint(station.chargePoints.value, p);
      assert m == l;
    }
  }

  predicate SameEvse(station: ChargingStation, a: int, b: int)
    requires GetConnectorFromID(station, a).Some? && GetConnectorFromID(station, b).Some?
  {
    a == b || (EvseGroup(station, a).Some? && EvseGroup(station, a) == EvseGroup(station, b))
  }

  function UidSuffix(station: ChargingStation, connectorID: int): string
    requires GetConnectorFromID(station, connectorID).Some?
  {
    var shared := EvseGroup(station, connectorID);
    if shared.Some? then "CP" + Decimal(shared.value) else Decimal(connectorID)
  }

  lemma PlainOrShared(station: ChargingStation, a: int)
    requires GetConnectorFromID(station, a).Some?
    ensures UidSuffix(station, a) != ""
    ensures UidSuffix(station, a)[0] == 'C' <==> EvseGroup(station, a).Some?
  {
    assert Natural(Abs(a))[0] in Natural(Abs(a));
    assert UidSuffix(station, a)[0] ==
           if EvseGroup(station, a).Some? then 'C' else if a < 0 then '-' else Natural(a)[0];
  }

  lemma SuffixesSplitEvses(station: ChargingStation, a: int, b: int)
    requires GetConnectorFromID(station, a).Some? && GetConnectorFromID(station, b).Some?
    ensures UidSuffix(station, a) == UidSuffix(station, b) <==> SameEvse(station, a, b)
  {
    PlainOrShared(station, a);
    PlainOrShared(station, b);
    var ga, gb := EvseGroup(station, a), EvseGroup(station, b);
    if UidSuffix(station, a) == UidSuffix(station, b) {
      if ga.Some? {
        assert Decimal(ga.value) == UidSuffix(station, a)[2..] && Decimal(gb.value) == UidSuffix(station, b)[2..];
        DecimalInjective(ga.value, gb.value);
      } else {
        DecimalInjective(a, b);
      }
    }
  }

  /** `buildEvseUID` is the same for two connectors exactly when they belong to one EVSE. */
  lemma UidGroupsConnectors(station: ChargingStation, a: int, b: int)
    requires GetConnectorFromID(station, a).Some? && GetConnectorFromID(station, b).Some?
    ensures BuildEvseUID(station, a) == BuildEvseUID(station, b) <==> SameEvse(station, a, b)
  {
    var prefix := station.id + "*";
    forall c | c == a || c == b
      ensures BuildEvseUID(station, c) == Ok(prefix + UidSuffix(station, c))
    {
      var shared := EvseGroup(station, c);
      assert shared.Some? ==> station.id + ("*CP" + Decimal(shared.value)) == prefix + UidSuffix(station, c);
      assert shared.None? ==> station.id + ("*" + Decimal(c)) == prefix + UidSuffix(station, c);
    }
    assert (prefix + UidSuffix(station, a))[|prefix|..] == UidSuffix(station, a);
    assert (prefix + UidSuffix(station, b))[|prefix|..] == UidSuffix(station, b);
    SuffixesSplitEvses(station, a, b);
  }

  /** The UID ends with the charge point or the connector, and everything before its last star is the station's id. */
  lemma UidReads(station: ChargingStation, a: int)
    requires GetConnectorFromID(station, a).Some?
    ensures var group := EvseGroup(station, a);
            BuildEvseUID(station, a) ==
              Ok(station.id + "*" + if group.Some? then "CP" + Decimal(group.value) else Decimal(a))
    ensures '*' !in UidSuffix(station, a)
  {
    var group := EvseGroup(station, a);
    assert group.Some? ==> station.id + ("*CP" + Decimal(group.value)) == station.id + "*" + UidSuffix(station, a);
    assert group.None? ==> station.id + ("*" + Decimal(a)) == station.id + "*" + UidSuffix(station, a);
    var n := if group.Some? then group.value else a;
    assert forall c <- Natural(Abs(n)) :: IsDigit(c);
  }

  /** UIDs of two stations with different ids differ. */
  lemma UidNamesStation(s: ChargingStation, a: int, t: ChargingStation, b: int)
    requires GetConnectorFromID(s, a).Some? && GetConnectorFromID(t, b).Some?
    requires BuildEvseUID(s, a) == BuildEvseUID(t, b)
    ensures s.id == t.id && UidSuffix(s, a) == UidSuffix(t, b)
  {
    UidReads(s, a);
    UidReads(t, b);
    assert s.id + "*" + UidSuffix(s, a) == s.id + ['*'] + UidSuffix(s, a);
    assert t.id + "*" + UidSuffix(t, b) == t.id + ['*'] + UidSuffix(t, b);
    LastField('*', s.id, UidSuffix(s, a), t.id, UidSuffix(t, b));
  }

  /** What normalisation leaves of the last part: a leading minus sign is swallowed. */
  function IdSuffix(station: ChargingStation, connectorID: int): string
    requires GetConnectorFromID(station, connectorID).Some?
  {
    var shared := EvseGroup(station, connectorID);
    if shared.None? then Natural(Abs(connectorID))
    else SharedSuffix(shared.value)
  }

  function SharedSuffix(n: int): string {
    if n < 0 then "CP*" + Natural(-n) else "CP" + Natural(n)
  }

  lemma CollapseSuffix(station: ChargingStation, a: int)
    requires GetConnectorFromID(station, a).Some?
    ensures Collapse(UidSuffix(station, a), true) == IdSuffix(station, a)
    ensures Upper(IdSuffix(station, a)) == IdSuffix(station, a)
  {
    var shared := EvseGroup(station, a);
    if shared.None? {
      CollapseNumber(a);
    } else {
      CollapseShared(shared.value);
    }
  }

  lemma CollapseShared(n: int)
    ensures Collapse("CP" + Decimal(n), true) == SharedSuffix(n) && Upper(SharedSuffix(n)) == SharedSuffix(n)
  {
    CollapseAppend("CP", Decimal(n), true);
    CollapseAlnum("CP", true);
    CollapseInside(n);
    UpperShared(n);
  }

  lemma CollapseInside(n: int)
    ensures "CP" + Collapse(Decimal(n), false) == SharedSuffix(n)
  {
    var number := Natural(Abs(n));
    CollapseAlnum(number, false);
    if n < 0 {
      assert Decimal(n)[1..] == number;
      CollapseNumber(n);
      CollapseAlnum(number, true);
      assert "CP" + ("*" + number) == "CP*" + number;
    }
  }

  lemma UpperShared(n: int)
    ensures Upper(SharedSuffix(n)) == SharedSuffix(n)
  {
    CollapseNumber(n);
    UpperAppend(if n < 0 then "CP*" else "CP", Natural(Abs(n)));
  }

  lemma EvseIDEndsWithSuffix(countryCode: string, partyId: string, station: ChargingStation, a: int)
    requires GetConnectorFromID(station, a).Some?
    ensures BuildEvseID(countryCode, partyId, station, a)
            == Ok(Normal(BuildOperatorName(countryCode, partyId) + "*E" + station.id + "*") + IdSuffix(station, a))
  {
    var prefix := BuildOperatorName(countryCode, partyId) + "*E" + station.id + "*";
    var shared := EvseGroup(station, a);
    var evse := BuildOperatorName(countryCode, partyId) + "*E" + station.id;
    assert shared.Some? ==> evse + ("*CP" + Decimal(shared.value)) == prefix + UidSuffix(station, a);
    assert shared.None? ==> evse + ("*" + Decimal(a)) == prefix + UidSuffix(station, a);
    CollapseAppend(prefix, UidSuffix(station, a), false);
    CollapseSuffix(station, a);
    UpperAppend(Collapse(prefix, false), IdSuffix(station, a));
  }

  /**
    `buildEvseID` groups connectors into the same EVSEs, for every operator and station id,
    except that two connectors of their own whose ids differ only in sign fall together.
   */
  lemma EvseIDGroupsConnectors(countryCode: string, partyId: string, station: ChargingStation, a: int, b: int)
    requires GetConnectorFromID(station, a).Some? && GetConnectorFromID(station, b).Some?
    ensures BuildEvseID(countryCode, partyId, station, a) == BuildEvseID(countryCode, partyId, station, b)
            <==> SameEvse(station, a, b)
                 || (EvseGroup(station, a).None? && EvseGroup(station, b).None? && a == -b)
  {
    EvseIDEndsWithSuffix(countryCode, partyId, station, a);
    EvseIDEndsWithSuffix(countryCode, partyId, station, b);
    var p := Normal(BuildOperatorName(countryCode, partyId) + "*E" + station.id + "*");
    var x, y := IdSuffix(station, a), IdSuffix(station, b);
    assert (p + x)[|p|..] == x && (p + y)[|p|..] == y;
    SuffixesSplitIds(station, a, b);
  }

  lemma SuffixesSplitIds(station: ChargingStation, a: int, b: int)
    requires GetConnectorFromID(station, a).Some? && GetConnectorFromID(station, b).Some?
    ensures IdSuffix(station, a) == IdSuffix(station, b) <==>
              SameEvse(station, a, b) || (EvseGroup(station, a).None? && EvseGroup(station, b).None? && a == -b)
  {
    var ga, gb := EvseGroup(station, a), EvseGroup(station, b);
    var x, y := IdSuffix(station, a), IdSuffix(station, b);
    if x == y {
      assert ga.None? ==> x[0] in Natural(Abs(a));
      assert gb.None? ==> y[0] in Natural(Abs(b));
      if ga.Some? {
        SharedSuffixInjective(ga.value, gb.value);
      } else {
        NaturalInjective(Abs(a), Abs(b));
      }
    }
  }

  /** For the ids a charging station reports, which are never negative, the two groupings agree. */
  lemma BothIdsGroupAlike(countryCode: string, partyId: string, station: ChargingStation, a: nat, b: nat)
    requires GetConnectorFromID(station, a).Some? && GetConnectorFromID(station, b).Some?
    ensures BuildEvseID(countryCode, partyId, station, a) == BuildEvseID(countryCode, partyId, station, b)
            <==> BuildEvseUID(station, a) == BuildEvseUID(station, b)
  {
    EvseIDGroupsConnectors(countryCode, partyId, station, a, b);
    UidGroupsConnectors(station, a, b);
  }

  lemma SharedSuffixInjective(m: int, n: int)
    requires SharedSuffix(m) == SharedSuffix(n)
    ensures m == n
  {
    var x, y := SharedSuffix(m), SharedSuffix(n);
    assert Natural(Abs(m))[0] in Natural(Abs(m)) && Natural(Abs(n))[0] in Natural(Abs(n));
    assert x[2] == (if m < 0 then '*' else Natural(m)[0]) && y[2] == (if n < 0 then '*' else Natural(n)[0]);
    assert Natural(Abs(m)) == x[if m < 0 then 3 else 2..] && Natural(Abs(n)) == y[if n < 0 then 3 else 2..];
    NaturalInjective(Abs(m), Abs(n));
  }

  // ---------------------------------------------------------------------------------
  // Parsing an id back
  // ---------------------------------------------------------------------------------

  /** The parser: first part, second part if there is one, last part. */
  lemma ComponentsRead(a: string, b: string, middle: string, last: string)
    requires '*' !in a && '*' !in b && '*' !in last
    ensures GetEvseIdComponents(a) == EvseIdComponents(a, None, a)
    ensures GetEvseIdComponents(a + "*" + b) == EvseIdComponents(a, Some(b), b)
    ensures GetEvseIdComponents(a + "*" + (b + "*" + (middle + "*" + last))) == EvseIdComponents(a, Some(b), last)
  {
    SplitNone(a, '*');
    SplitNone(b, '*');
    SplitFirst(a, b, '*');
    var rest := middle + ['*'] + last;
    SplitLast(middle, last, '*');
    SplitFirst(b, rest, '*');
    SplitFirst(a, b + ['*'] + rest, '*');
    assert a + "*" + b == a + ['*'] + b;
    assert a + "*" + (b + "*" + (middle + "*" + last)) == a + ['*'] + (b + ['*'] + rest);
  }

  lemma CollapseHead(a: string, b: string, inRun: bool)
    requires AllAlnum(a) && (a != "" || !inRun)
    ensures Collapse(a + ("*" + b), inRun) == a + ("*" + Collapse(b, true))
  {
    CollapseAppend(a, "*" + b, inRun);
    CollapseAlnum(a, inRun);
    assert ("*" + b)[1..] == b;
    if a != "" {
      assert a[|a| - 1] in a;
    }
  }

  /** The first field of a text comes first in its normal form, unless it is swallowed by a run. */
  lemma NormalHead(a: string, b: string, inRun: bool)
    requires AllAlnum(a) && (a != "" || !inRun)
    ensures Split(Upper(Collapse(a + ("*" + b), inRun)), '*') == [Upper(a)] + Split(Upper(Collapse(b, true)), '*')
  {
    var rest := Collapse(b, true);
    CollapseHead(a, b, inRun);
    UpperAppend(a, "*" + rest);
    UpperAppend("*", rest);
    UpperOfAlnum(a);
    assert Upper(a) + ("*" + Upper(rest)) == Upper(a) + ['*'] + Upper(rest);
    SplitFirst(Upper(a), Upper(rest), '*');
  }

  lemma UpperOfAlnum(a: string)
    requires AllAlnum(a)
    ensures '*' !in Upper(a) && Upper("*") == "*"
  {
    forall i | 0 <= i < |a|
      ensures Upper(a)[i] != '*'
    {
      assert a[i] in a;
    }
  }

  lemma {:induction false} StarAtEnd(s: string) returns (front: string)
    ensures Collapse(s + "*", false) == front + "*"
  {
    CollapseAppend(s, "*", false);
    if !RunAfter(s, false) {
      front := Collapse(s, false);
    } else {
      var f := s[..|s| - 1];
      assert f + [s[|s| - 1]] == s;
      CollapseAppend(f, [s[|s| - 1]], false);
      CollapseAppend(f, "*", false);
      front := StarAtEnd(f);
    }
  }

  /** The last component is always the connector's number, without its sign. */
  lemma ConnectorIdRoundTrip(countryCode: string, partyId: string, station: ChargingStation, n: int)
    ensures GetEvseIdComponents(BuildEvseConnectorID(countryCode, partyId, station, n)).connectorId == Natural(Abs(n))
  {
    var evse := BuildOperatorName(countryCode, partyId) + "*E" + station.id;
    var number := Natural(Abs(n));
    var front := StarAtEnd(evse);
    CollapseAppend(evse + "*", Decimal(n), false);
    CollapseNumber(n);
    assert evse + "*" + Decimal(n) == (evse + "*") + Decimal(n);
    UpperAppend(front + "*", number);
    UpperAppend(front, "*");
    assert Upper("*") == "*";
    SplitLast(Upper(front), number, '*');
  }

  lemma CollapseNumber(n: int)
    ensures Collapse(Decimal(n), true) == Natural(Abs(n)) && Upper(Natural(Abs(n))) == Natural(Abs(n))
    ensures '*' !in Natural(Abs(n))
  {
    var number := Natural(Abs(n));
    CollapseAlnum(number, true);
    assert n < 0 ==> Decimal(n)[1..] == number;
    assert forall i :: 0 <= i < |number| ==> number[i] in number && UpperChar(number[i]) == number[i];
  }

  /**
    Country and party come back, in upper case, exactly when both are alphanumeric and the
    party is not empty. An empty country is harmless; an empty party is swallowed by the
    separator run and the station takes its place.
   */
  lemma OperatorRoundTrip(countryCode: string, partyId: string, station: ChargingStation, n: int)
    ensures OperatorComesBack(countryCode, partyId, BuildEvseConnectorID(countryCode, partyId, station, n))
            <==> AllAlnum(countryCode) && AllAlnum(partyId) && partyId != ""
  {
    var tail := "E" + station.id + "*" + Decimal(n);
    var id := BuildEvseConnectorID(countryCode, partyId, station, n);
    assert BuildOperatorName(countryCode, partyId) + "*E" + station.id + "*" + Decimal(n)
           == countryCode + ("*" + (partyId + ("*" + tail)));
    assert id == Normal(countryCode + ("*" + (partyId + ("*" + tail))));
    OperatorOfNormal(countryCode, partyId, tail);
  }

  function Fields(countryCode: string, partyId: string, stationID: string, tail: string): string {
    countryCode + ("*" + (partyId + ("*" + (("E" + stationID) + ("*" + tail)))))
  }

  lemma Regrouped(a: string, b: string, c: string, d: string)
    ensures a + "*" + b + "*E" + c + d == a + ("*" + (b + ("*" + (("E" + c) + d))))
  {
    var x := "E" + c + d;
    assert "*E" + c + d == "*" + x;
    assert a + "*" + b + "*E" + c + d == (a + "*" + b) + ("*E" + c + d);
  }

  lemma StationField(stationID: string, tail: string, last: string)
    requires AllAlnum(stationID) && Upper(Collapse(tail, true)) == last && '*' !in last
    ensures Split(Upper(Collapse(("E" + stationID) + ("*" + tail), true)), '*') == ["E" + Upper(stationID), last]
  {
    NormalHead("E" + stationID, tail, true);
    UpperAppend("E", stationID);
    assert Upper("E") == "E";
    SplitNone(last, '*');
  }

  lemma FourFields(countryCode: string, partyId: string, stationID: string, tail: string, last: string)
    requires AllAlnum(countryCode) && AllAlnum(partyId) && partyId != "" && AllAlnum(stationID)
    requires Upper(Collapse(tail, true)) == last && '*' !in last
    ensures Split(Normal(Fields(countryCode, partyId, stationID, tail)), '*')
            == [Upper(countryCode), Upper(partyId), "E" + Upper(stationID), last]
  {
    var x := ("E" + stationID) + ("*" + tail);
    NormalHead(countryCode, partyId + ("*" + x), false);
    NormalHead(partyId, x, true);
    StationField(stationID, tail, last);
  }

  /**
    Where the names are alphanumeric the id of a connector has four parts: country, party,
    station and the connector's number.
   */
  lemma ConnectorIDReads(countryCode: string, partyId: string, station: ChargingStation, n: int)
    requires AllAlnum(countryCode) && AllAlnum(partyId) && partyId != "" && AllAlnum(station.id)
    ensures Split(BuildEvseConnectorID(countryCode, partyId, station, n), '*')
            == [Upper(countryCode), Upper(partyId), "E" + Upper(station.id), Natural(Abs(n))]
  {
    CollapseNumber(n);
    FourFields(countryCode, partyId, station.id, Decimal(n), Natural(Abs(n)));
    var evse := BuildOperatorName(countryCode, partyId) + "*E" + station.id;
    Regrouped(countryCode, partyId, station.id, "*" + Decimal(n));
    assert evse + "*" + Decimal(n) == evse + ("*" + Decimal(n));
  }

  /** So has the id of an EVSE, with the charge point instead if its connectors share one. */
  lemma EvseIDReads(countryCode: string, partyId: string, station: ChargingStation, n: int)
    requires AllAlnum(countryCode) && AllAlnum(partyId) && partyId != "" && AllAlnum(station.id)
    requires GetConnectorFromID(station, n).Some?
    ensures var group := EvseGroup(station, n);
            var id := BuildEvseID(countryCode, partyId, station, n);
            && id.Ok?
            && (group.None? ==> id.value == BuildEvseConnectorID(countryCode, partyId, station, n))
            && (group.Some? && group.value >= 0 ==>
                  Split(id.value, '*') ==
                    [Upper(countryCode), Upper(partyId), "E" + Upper(station.id), "CP" + Natural(group.value)])
  {
    var evse := BuildOperatorName(countryCode, partyId) + "*E" + station.id;
    var group := EvseGroup(station, n);
    if group.None? {
      assert evse + ("*" + Decimal(n)) == evse + "*" + Decimal(n);
    } else if group.value >= 0 {
      SharedIDReads(countryCode, partyId, station.id, group.value);
      SharedFields(countryCode, partyId, station.id, group.value);
    }
  }

  lemma SharedIDReads(countryCode: string, partyId: string, stationID: string, p: nat)
    requires AllAlnum(countryCode) && AllAlnum(partyId) && partyId != "" && AllAlnum(stationID)
    ensures Split(Normal(Fields(countryCode, partyId, stationID, "CP" + Decimal(p))), '*')
            == [Upper(countryCode), Upper(partyId), "E" + Upper(stationID), "CP" + Natural(p)]
  {
    SharedLast(p);
    FourFields(countryCode, partyId, stationID, "CP" + Decimal(p), "CP" + Natural(p));
  }

  lemma SharedFields(countryCode: string, partyId: string, stationID: string, p: nat)
    ensures BuildOperatorName(countryCode, partyId) + "*E" + stationID + ("*CP" + Decimal(p))
            == Fields(countryCode, partyId, stationID, "CP" + Decimal(p))
  {
    Regrouped(countryCode, partyId, stationID, "*CP" + Decimal(p));
    assert "*CP" + Decimal(p) == "*" + ("CP" + Decimal(p));
  }

  lemma SharedLast(p: nat)
    ensures Upper(Collapse("CP" + Decimal(p), true)) == "CP" + Natural(p) && '*' !in "CP" + Natural(p)
  {
    CollapseShared(p);
  }

  predicate OperatorComesBack(countryCode: string, partyId: string, id: string) {
    var c := GetEvseIdComponents(id);
    c.countryCode == Upper(countryCode) && c.partyId == Some(Upper(partyId))
  }

  lemma OperatorOfNormal(countryCode: string, partyId: string, tail: string)
    requires tail != "" && IsAlnum(tail[0])
    ensures OperatorComesBack(countryCode, partyId, Normal(countryCode + ("*" + (partyId + ("*" + tail)))))
            <==> AllAlnum(countryCode) && AllAlnum(partyId) && partyId != ""
  {
    var id := Normal(countryCode + ("*" + (partyId + ("*" + tail))));
    if AllAlnum(countryCode) && AllAlnum(partyId) && partyId != "" {
      NormalHead(countryCode, partyId + ("*" + tail), false);
      NormalHead(partyId, tail, true);
    } else if OperatorComesBack(countryCode, partyId, id) {
      NormalIsNormal(countryCode + ("*" + (partyId + ("*" + tail))));
      PartIsAlnum(countryCode, id, 0);
      PartIsAlnum(partyId, id, 1);
      NormalHead(countryCode, partyId + ("*" + tail), false);
      EmptyParty(tail);
      assert false;
    }
  }

  /** A part of a normal form that is the upper-case of some text shows the text alphanumeric. */
  lemma PartIsAlnum(text: string, id: string, k: nat)
    requires IsNormal(id) && k < |Split(id, '*')| && Split(id, '*')[k] == Upper(text)
    ensures AllAlnum(text)
  {
    SplitParts(id, '*', k);
    forall i | 0 <= i < |text|
      ensures IsAlnum(text[i])
    {
      assert Upper(text)[i] in Split(id, '*')[k];
    }
  }

  lemma EmptyParty(tail: string)
    requires tail != "" && IsAlnum(tail[0])
    ensures Split(Upper(Collapse("" + ("*" + tail), true)), '*')[0] != ""
  {
    assert ("" + ("*" + tail))[1..] == tail;
    assert Collapse(tail, true)[0] == tail[0];
  }
}
