/**
 * The shape check applied to every parsed incoming message before it is
 * routed to a listener. It inspects only the top-level `type` member and
 * the number of members.
 */
module Validators {
  import opened Models

  /** A value as JSON parsing produces it; an object keeps one value per key. */
  datatype Json =
    | JNull
    | JBool(b: bool)
    | JNumber(n: real)
    | JString(str: string)
    | JArray(items: seq<Json>)
    | JObject(members: map<string, Json>)

  const StartGameType: string := "START_GAME"
  const StageCardClickedType: string := "STAGE_CARD_CLICKED"

  /** The message kinds a listener can be registered for. */
  const ValidTransmissionTypes: seq<string> := [StartGameType, StageCardClickedType]

  /** JavaScript truthiness of a parsed value. */
  predicate Truthy(v: Json) {
    match v
    case JNull => false
    case JBool(b) => b
    case JNumber(n) => n != 0.0
    case JString(s) => s != ""
    case _ => true
  }

  /** `typeof v === 'object'`: null, arrays and objects. */
  predicate IsObjectType(v: Json) {
    v.JNull? || v.JArray? || v.JObject?
  }

  /** `'type' in v`; neither an array nor null has such a property. */
  predicate HasTypeKey(v: Json) {
    v.JObject? && "type" in v.members
  }

  /**
   * The validator, with its early returns in the source's order. The final
   * switch covers both accepted type names, so its default branch is
   * unreachable and the validator never throws.
   */
  function IsValid(v: Json): (valid: bool)
    ensures valid <==>
      && v.JObject?
      && "type" in v.members
      && (v.members["type"] == JString(StartGameType) || v.members["type"] == JString(StageCardClickedType))
      && (v.members["type"] == JString(StartGameType) ==> |v.members| == 1)
      && (v.members["type"] == JString(StageCardClickedType) ==> |v.members| == 2)
  {
    if !Truthy(v) then false
    else if !IsObjectType(v) then false
    else if !HasTypeKey(v) then false
    else if !v.members["type"].JString? then false
    else if v.members["type"].str !in ValidTransmissionTypes then false
    else
      var t := v.members["type"].str;
      var keys := v.members.Keys;
      if t == StartGameType then
        // with a single key present, that key is the first one listed
        |keys| == 1 && "type" in keys
      else if t == StageCardClickedType then
        |keys| == 2
      else
        assert false; false
  }

  /** Throws (here: fails) exactly when the message is not valid. */
  function AssertValid(v: Json): (o: Outcome)
    ensures o.Failed? <==> !IsValid(v)
    ensures o.Failed? ==> o == Failed("Incoming transmission is invalid.")
  {
    if !IsValid(v) then Failed("Incoming transmission is invalid.") else Done
  }

  lemma FalsyOrNonObjectIsInvalid(v: Json)
    requires !Truthy(v) || !IsObjectType(v)
    ensures !IsValid(v)
  {
  }

  lemma BadTypeMemberIsInvalid(v: Json)
    requires v.JObject?
    requires "type" !in v.members
          || !v.members["type"].JString?
          || v.members["type"].str !in ValidTransmissionTypes
    ensures !IsValid(v)
  {
  }

  lemma StartGameValidIffOnlyKey(members: map<string, Json>)
    requires "type" in members && members["type"] == JString(StartGameType)
    ensures IsValid(JObject(members)) <==> members.Keys == {"type"}
  {
    if IsValid(JObject(members)) {
      var rest := members.Keys - {"type"};
      assert members.Keys == rest + {"type"};
      assert |rest| == 0;
    }
  }

  /** The second member's name and value are not inspected. */
  lemma StageCardClickedAcceptsAnySecondMember(other: string, value: Json)
    requires other != "type"
    ensures IsValid(JObject(map["type" := JString(StageCardClickedType), other := value]))
  {
    var m := map["type" := JString(StageCardClickedType), other := value];
    assert m.Keys == {"type", other};
  }
}
