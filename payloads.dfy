/**
 * The synthetic event batch the harness sends to the log-producing function
 * (e2e/payloads.go): the mock-scenario names, the event record, the fixed
 * battery of eight events and their serialisation into a slice of byte slices.
 *
 * The JSON encoder is a parameter (`marshal`), and so are the sixteen random
 * octets behind each generated UUID (`random`).
 */
module Payloads {
  import opened Common
  import Uuid

  /** `MockScenario` is a Go `int` whose named values come from `iota`. */
  type MockScenario = int

  const Success: MockScenario := 0
  const InternalServerError: MockScenario := 1
  const DelayedResponse: MockScenario := 2
  const ConnectionReset: MockScenario := 3
  const NotFound: MockScenario := 4
  const ValidationFailure: MockScenario := 5

  /** The array literal `String` indexes into. */
  const SCENARIO_NAMES: seq<string> :=
    ["success", "internalServerError", "delayedResponse", "connectionReset", "notFound", "validationFailure"]

  /** The run-time panic of indexing an array out of range. */
  datatype Panic = IndexOutOfRange(index: int, length: int)

  /** `MockScenario.String`: the name of a declared scenario, a panic for any other value. */
  function String(m: MockScenario): (r: Result<string, Panic>)
    ensures r.Ok? <==> Success <= m <= ValidationFailure
    ensures r.Err? ==> r.error == IndexOutOfRange(m, 6)
    ensures r.Ok? ==> r.value == SCENARIO_NAMES[m]
  {
    if 0 <= m < |SCENARIO_NAMES| then Ok(SCENARIO_NAMES[m]) else Err(IndexOutOfRange(m, |SCENARIO_NAMES|))
  }

  /** Different declared scenarios have different names. */
  lemma StringInjective(m: MockScenario, n: MockScenario)
    requires String(m).Ok? && String(n).Ok?
    ensures String(m) == String(n) ==> m == n
  {
    if m != n {
      var a, b := SCENARIO_NAMES[m], SCENARIO_NAMES[n];
      assert |a| != |b| || a[0] != b[0];
    }
  }

  /** The `event` record; every field is a Go string. */
  datatype Event = Event(
    tenantId: string,
    thirdPartyName: string,
    entityId: string,
    entityType: string,
    operationCategory: string,
    operationSubCategory: string,
    mockScenario: string)

  const BATTERY_SIZE := 8

  /** The scenario each event of the battery names, in literal order. */
  const BATTERY_SCENARIOS: seq<MockScenario> :=
    [Success, Success, InternalServerError, DelayedResponse, ConnectionReset, NotFound, ValidationFailure, DelayedResponse]

  /** The fixed battery: `random[i]` is what the random source gave the i-th `uuid.NewV4` call. */
  function Battery(random: seq<Uuid.Uuid>): (e: seq<Event>)
    requires |random| == BATTERY_SIZE
    ensures |e| == BATTERY_SIZE
    ensures forall i :: 0 <= i < BATTERY_SIZE ==>
      e[i].entityId == Uuid.ToString(Uuid.NewV4(random[i])) && e[i].mockScenario == String(BATTERY_SCENARIOS[i]).value
  {
    var id := i requires 0 <= i < BATTERY_SIZE => Uuid.ToString(Uuid.NewV4(random[i]));
    [ Event("tenant1", "thirdPartyA", id(0), "product", "created", "subCat1", String(Success).value),
      Event("tenant1", "thirdPartyB", id(1), "product", "priceUpdated", "subCat2", String(Success).value),
      Event("tenant2", "thirdPartyA", id(2), "order", "checkout", "subCat1", String(InternalServerError).value),
      Event("tenant2", "thirdPartyB", id(3), "order", "paid", "subCat3", String(DelayedResponse).value),
      Event("tenant1", "thirdPartyA", id(4), "order", "enroute", "subCat2", String(ConnectionReset).value),
      Event("tenant2", "thirdPartyB", id(5), "product", "created", "subCat3", String(NotFound).value),
      Event("tenant1", "thirdPartyA", id(6), "order", "delivered", "subCat1", String(ValidationFailure).value),
      Event("tenant2", "thirdPartyB", id(7), "product", "priceUpdated", "subCat2", String(DelayedResponse).value) ]
  }

  /** Only the entity id depends on the random source: every other field is fixed. */
  lemma BatteryFixedFields(random1: seq<Uuid.Uuid>, random2: seq<Uuid.Uuid>, i: int)
    requires |random1| == BATTERY_SIZE && |random2| == BATTERY_SIZE && 0 <= i < BATTERY_SIZE
    ensures Battery(random1)[i].(entityId := "") == Battery(random2)[i].(entityId := "")
  {
  }

  /** Distinct generated UUIDs give the events distinct entity ids. */
  lemma BatteryDistinctEntityIds(random: seq<Uuid.Uuid>)
    requires |random| == BATTERY_SIZE
    requires forall i, j :: 0 <= i < j < BATTERY_SIZE ==> Uuid.NewV4(random[i]) != Uuid.NewV4(random[j])
    ensures forall i, j :: 0 <= i < j < BATTERY_SIZE ==> Battery(random)[i].entityId != Battery(random)[j].entityId
  {
    forall i, j | 0 <= i < j < BATTERY_SIZE
      ensures Battery(random)[i].entityId != Battery(random)[j].entityId
    {
      Uuid.ToStringInjective(Uuid.NewV4(random[i]), Uuid.NewV4(random[j]));
    }
  }

  /** Every entity id is the 36-character text of a version-4 UUID. */
  lemma BatteryEntityIdsAreV4(random: seq<Uuid.Uuid>, i: int)
    requires |random| == BATTERY_SIZE && 0 <= i < BATTERY_SIZE
    ensures |Battery(random)[i].entityId| == 36
    ensures Battery(random)[i].entityId[14] == '4' && Battery(random)[i].entityId[19] in "89ab"
  {
    Uuid.V4Text(Uuid.NewV4(random[i]));
  }

  /** A Go `[]byte`: nil, or a slice holding bytes. */
  datatype ByteSlice = Nil | Slice(bytes: seq<byte>)

  /** The error `json.Marshal` returned. */
  type MarshalError = string

  /** Index of the first event the encoder rejects, or |e| when it accepts all of them. */
  function FirstRejected(e: seq<Event>, marshal: Event -> Result<seq<byte>, MarshalError>): (k: nat)
    ensures k <= |e|
    ensures forall j :: 0 <= j < k ==> marshal(e[j]).Ok?
    ensures k < |e| ==> marshal(e[k]).Err?
  {
    if e == [] then 0
    else if marshal(e[0]).Err? then 0
    else 1 + FirstRejected(e[1..], marshal)
  }

  /**
   * `p := make([][]byte, prefill)` followed by one `append` per event. On the
   * first encoder error the result is that error and no slice at all.
   */
  method Serialise(e: seq<Event>, marshal: Event -> Result<seq<byte>, MarshalError>, prefill: nat)
    returns (r: Result<seq<ByteSlice>, MarshalError>)
    ensures var k := FirstRejected(e, marshal);
      if k < |e| then r == Err(marshal(e[k]).error)
      else
        && r.Ok?
        && |r.value| == prefill + |e|
        && (forall i :: 0 <= i < prefill ==> r.value[i] == Nil)
        && (forall i :: 0 <= i < |e| ==> r.value[prefill + i] == Slice(marshal(e[i]).value))
  {
    var p := seq(prefill, _ => Nil);
    for i := 0 to |e|
      invariant forall j :: 0 <= j < i ==> marshal(e[j]).Ok?
      invariant |p| == prefill + i
      invariant forall j :: 0 <= j < prefill ==> p[j] == Nil
      invariant forall j :: 0 <= j < i ==> p[prefill + j] == Slice(marshal(e[j]).value)
    {
      var payload := marshal(e[i]);
      if payload.Err? {
        FirstRejectedAt(e, marshal, i);
        return Err(payload.error);
      }
      p := p + [Slice(payload.value)];
    }
    FirstRejectedAt(e, marshal, |e|);
    return Ok(p);
  }

  /** The first rejected index is k when all before k are accepted and k is rejected or past the end. */
  lemma FirstRejectedAt(e: seq<Event>, marshal: Event -> Result<seq<byte>, MarshalError>, k: nat)
    requires k <= |e|
    requires forall j :: 0 <= j < k ==> marshal(e[j]).Ok?
    requires k < |e| ==> marshal(e[k]).Err?
    ensures FirstRejected(e, marshal) == k
  {
  }

  /**
   * `payloads()` as written: the slice is made with length len(e) and then
   * appended to, so a successful result holds len(e) nil entries followed by
   * the eight payloads in literal order: sixteen entries in all.
   */
  method Payloads(random: seq<Uuid.Uuid>, marshal: Event -> Result<seq<byte>, MarshalError>)
    returns (r: Result<seq<ByteSlice>, MarshalError>)
    requires |random| == BATTERY_SIZE
    ensures var e := Battery(random);
      && (r.Ok? <==> forall i :: 0 <= i < BATTERY_SIZE ==> marshal(e[i]).Ok?)
      && (r.Err? ==> exists k :: 0 <= k < BATTERY_SIZE && marshal(e[k]).Err? && r.error == marshal(e[k]).error)
      && (r.Ok? ==>
          && |r.value| == 2 * BATTERY_SIZE
          && (forall i :: 0 <= i < BATTERY_SIZE ==> r.value[i] == Nil)
          && (forall i :: 0 <= i < BATTERY_SIZE ==> r.value[BATTERY_SIZE + i] == Slice(marshal(e[i]).value)))
  {
    var e := Battery(random);
    r := Serialise(e, marshal, |e|);
  }

  /**
   * The batch as evidently intended: the slice starts empty (capacity len(e))
   * so that a successful result holds exactly one payload per event.
   */
  method PayloadsExact(random: seq<Uuid.Uuid>, marshal: Event -> Result<seq<byte>, MarshalError>)
    returns (r: Result<seq<ByteSlice>, MarshalError>)
    requires |random| == BATTERY_SIZE
    ensures var e := Battery(random);
      && (r.Ok? <==> forall i :: 0 <= i < BATTERY_SIZE ==> marshal(e[i]).Ok?)
      && (r.Err? ==> exists k :: 0 <= k < BATTERY_SIZE && marshal(e[k]).Err? && r.error == marshal(e[k]).error)
      && (r.Ok? ==>
          && |r.value| == BATTERY_SIZE
          && (forall i :: 0 <= i < BATTERY_SIZE ==> r.value[i] == Slice(marshal(e[i]).value)))
  {
    var e := Battery(random);
    r := Serialise(e, marshal, 0);
  }
}
