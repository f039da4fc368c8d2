/**
 * The message codec and the persistence rule of the server's `Room`
 * (server/rooms/models.py), at the level of decoded JSON values: an envelope is
 * the object `{t, p}` before `json.dumps`, and a decoded frame is the value
 * `json.loads` produced.
 */
module RoomCodec {
  import opened Wrappers
  import opened Values

  /** `Room.message(type, payload)`: the dictionary with exactly these two entries. */
  datatype RoomMessage = RoomMessage(typeName: string, payload: Value)

  /** What the Python code raises. */
  datatype PyError =
    | KeyError(key: Value)     // a dictionary lookup of a missing key
    | TypeError                // subscripting a non-dictionary, or an unhashable key
    | DoesNotExist             // `memberships.get(...)` found no row

  /** `MESSAGE_TYPE_MAP`: wire code to type name. */
  function TypeMap(): map<string, string> {
    map["s" := "signalling", "m" := "message", "l" := "leave", "j" := "join",
        "a" := "announce", "A" := "action", "e" := "event"]
  }

  /** `MESSAGE_TYPE_MAP_INVERSE`: every pair of the map, turned round. */
  function TypeMapInverse(): map<string, string> {
    TypeMapInjective();
    map code | code in TypeMap() :: TypeMap()[code] := code
  }

  /** No two codes share a type name. */
  lemma TypeMapInjective()
    ensures forall a, b :: a in TypeMap() && b in TypeMap() && a != b ==> TypeMap()[a] != TypeMap()[b]
  {
    assert TypeMap().Keys == {"s", "m", "l", "j", "a", "A", "e"};
  }

  /** The names the codec knows. */
  ghost predicate KnownType(name: string) {
    exists code :: code in TypeMap() && TypeMap()[code] == name
  }

  /** A name has an inverse entry exactly when some code maps to it. */
  lemma InverseDefinedOnNames(name: string)
    ensures name in TypeMapInverse() <==> KnownType(name)
  {
  }

  /** The inverse sends a name back to the code that maps to it. */
  lemma InverseUndoes(name: string)
    requires name in TypeMapInverse()
    ensures TypeMapInverse()[name] in TypeMap() && TypeMap()[TypeMapInverse()[name]] == name
  {
    var code :| code in TypeMap() && TypeMap()[code] == name;
  }

  /** Looking a code's name up in the inverse gives back the code. */
  lemma InverseOfCode(code: string)
    requires code in TypeMap()
    ensures TypeMap()[code] in TypeMapInverse() && TypeMapInverse()[TypeMap()[code]] == code
  {
    InverseUndoes(TypeMap()[code]);
    TypeMapInjective();
  }

  /**
   * Seven codes map one-to-one onto seven names, and the inverse map is the
   * exact inverse: it is defined on exactly the names, and each direction undoes
   * the other.
   */
  lemma TypeMapBijective()
    ensures TypeMap().Keys == {"s", "m", "l", "j", "a", "A", "e"}
    ensures TypeMap().Values == {"signalling", "message", "leave", "join", "announce", "action", "event"}
    ensures forall a, b :: a in TypeMap() && b in TypeMap() && a != b ==> TypeMap()[a] != TypeMap()[b]
    ensures TypeMapInverse().Keys == TypeMap().Values
    ensures forall code :: code in TypeMap() ==>
              TypeMap()[code] in TypeMapInverse() && TypeMapInverse()[TypeMap()[code]] == code
    ensures forall name :: name in TypeMapInverse() ==>
              TypeMapInverse()[name] in TypeMap() && TypeMap()[TypeMapInverse()[name]] == name
  {
    forall code | code in TypeMap()
      ensures TypeMap()[code] in TypeMapInverse() && TypeMapInverse()[TypeMap()[code]] == code
    {
      InverseOfCode(code);
    }
    forall name | name in TypeMapInverse()
      ensures TypeMapInverse()[name] in TypeMap() && TypeMap()[TypeMapInverse()[name]] == name
    {
      InverseUndoes(name);
    }
    TypeMapContents();
    TypeMapInjective();
    InverseKeys();
  }

  lemma InverseKeys()
    ensures TypeMapInverse().Keys == TypeMap().Values
  {
    forall name
      ensures name in TypeMapInverse() <==> name in TypeMap().Values
    {
      InverseDefinedOnNames(name);
    }
  }

  /** The seven codes and the seven names. */
  lemma TypeMapContents()
    ensures TypeMap().Keys == {"s", "m", "l", "j", "a", "A", "e"}
    ensures TypeMap().Values == {"signalling", "message", "leave", "join", "announce", "action", "event"}
  {
  }

  /** The seven names, spelled out. */
  lemma KnownTypes(name: string)
    requires KnownType(name)
    ensures name in {"signalling", "message", "leave", "join", "announce", "action", "event"}
  {
    var code :| code in TypeMap() && TypeMap()[code] == name;
    assert TypeMap().Keys == {"s", "m", "l", "j", "a", "A", "e"};
  }

  /** `encode_message`: the envelope `{t: code, p: payload}`; an unknown type name is a KeyError. */
  function EncodeMessage(m: RoomMessage): (r: Result<Value, PyError>)
    ensures r.Success? <==> KnownType(m.typeName)
    ensures r.Failure? ==> r.error == KeyError(Str(m.typeName))
    ensures r.Success? ==> r.value.Obj? && r.value.fields.Keys == {"t", "p"} && r.value.fields["p"] == m.payload
  {
    InverseDefinedOnNames(m.typeName);
    if m.typeName in TypeMapInverse() then Success(Obj(map["t" := Str(TypeMapInverse()[m.typeName]), "p" := m.payload]))
    else Failure(KeyError(Str(m.typeName)))
  }

  /**
   * `decode_message`: the type is looked up first, then the payload. A frame that
   * is not a dictionary, or whose code is a list or a dictionary, is a TypeError;
   * a missing entry or an unknown code is a KeyError.
   */
  function DecodeMessage(v: Value): (r: Result<RoomMessage, PyError>)
    ensures r.Success? <==> v.Obj? && "t" in v.fields && "p" in v.fields
                            && v.fields["t"].Str? && v.fields["t"].s in TypeMap()
    ensures r.Success? ==> KnownType(r.value.typeName) && r.value.payload == v.fields["p"]
    ensures !v.Obj? ==> r == Failure(TypeError)
    ensures v.Obj? && "t" !in v.fields ==> r == Failure(KeyError(Str("t")))
    ensures v.Obj? && "t" in v.fields && (v.fields["t"].Arr? || v.fields["t"].Obj?) ==> r == Failure(TypeError)
    ensures (v.Obj? && "t" in v.fields && !v.fields["t"].Arr? && !v.fields["t"].Obj?
             && !(v.fields["t"].Str? && v.fields["t"].s in TypeMap()))
            ==> r == Failure(KeyError(v.fields["t"]))
    ensures (v.Obj? && "t" in v.fields && v.fields["t"].Str? && v.fields["t"].s in TypeMap() && "p" !in v.fields)
            ==> r == Failure(KeyError(Str("p")))
  {
    if !v.Obj? then Failure(TypeError)
    else if "t" !in v.fields then Failure(KeyError(Str("t")))
    else
      var t := v.fields["t"];
      if t.Arr? || t.Obj? then Failure(TypeError)
      else if !(t.Str? && t.s in TypeMap()) then Failure(KeyError(t))
      else if "p" !in v.fields then Failure(KeyError(Str("p")))
      else Success(RoomMessage(TypeMap()[t.s], v.fields["p"]))
  }

  /** Decoding an encoded message gives back the same type and payload, for every known type. */
  lemma DecodeEncode(m: RoomMessage)
    requires KnownType(m.typeName)
    ensures EncodeMessage(m).Success? && DecodeMessage(EncodeMessage(m).value) == Success(m)
  {
    InverseDefinedOnNames(m.typeName);
    InverseUndoes(m.typeName);
  }

  /** Encoding a decoded frame gives back its code and payload (other entries of the frame are dropped). */
  lemma EncodeDecode(v: Value)
    requires DecodeMessage(v).Success?
    ensures EncodeMessage(DecodeMessage(v).value) == Success(Obj(map["t" := v.fields["t"], "p" := v.fields["p"]]))
  {
    InverseOfCode(v.fields["t"].s);
  }

  // ---------------------------------------------------------------------------
  // Persistence

  /** Event sub-types that are broadcast but never stored. */
  function TransientEvents(): set<Value> {
    {Str("recording_progress"), Str("upload_progress"), Str("meter_update")}
  }

  /**
   * `should_save_message`. `None` is what the function returns when no branch
   * matches. An event whose payload is not a dictionary, or has no `type`, raises.
   */
  function ShouldSaveMessage(m: RoomMessage): Result<Option<bool>, PyError> {
    if m.typeName == "leave" || m.typeName == "announce" then Success(Some(true))
    else if m.typeName == "join" || m.typeName == "signalling" || m.typeName == "action" then Success(Some(false))
    else if m.typeName == "event" then
      if !m.payload.Obj? then Failure(TypeError)
      else if "type" !in m.payload.fields then Failure(KeyError(Str("type")))
      else Success(Some(m.payload.fields["type"] !in TransientEvents()))
    else Success(None)
  }

  /**
   * The rule over the codec's seven names: `leave` and `announce` are saved;
   * `join`, `signalling` and `action` are not; an event is saved unless its
   * sub-type is transient; `message` falls through to `None`. Only events raise.
   */
  lemma ShouldSaveRule(m: RoomMessage)
    requires KnownType(m.typeName)
    ensures var r := ShouldSaveMessage(m);
      && (m.typeName in {"leave", "announce"} ==> r == Success(Some(true)))
      && (r == Success(Some(true)) ==> m.typeName in {"leave", "announce", "event"})
      && (m.typeName in {"join", "signalling", "action"} ==> r == Success(Some(false)))
      && (m.typeName == "message" <==> r == Success(None))
      && (r.Failure? ==> m.typeName == "event")
      && (m.typeName == "event" && m.payload.Obj? && "type" in m.payload.fields ==>
            r == Success(Some(m.payload.fields["type"] !in TransientEvents())))
  {
    KnownTypes(m.typeName);
  }

  /**
   * The decision inside `send`: an explicit `save` decides; otherwise a broadcast
   * asks `should_save_message` and a message to one peer is not stored. `None`
   * counts as not saved.
   */
  function SaveDecision(m: RoomMessage, toPeer: Option<string>, save: Option<bool>): Result<bool, PyError> {
    var s := if save.None? && toPeer.None? then ShouldSaveMessage(m) else Success(save);
    match s
    case Failure(e) => Failure(e)
    case Success(o) => Success(o == Some(true))
  }

  lemma SaveDecisionRules(m: RoomMessage, toPeer: Option<string>, save: Option<bool>)
    ensures save.Some? ==> SaveDecision(m, toPeer, save) == Success(save.value)
    ensures save.None? && toPeer.Some? ==> SaveDecision(m, toPeer, save) == Success(false)
    ensures save.None? && toPeer.None? ==>
      && (SaveDecision(m, toPeer, save).Success? <==> ShouldSaveMessage(m).Success?)
      && (SaveDecision(m, toPeer, save) == Success(true) <==> ShouldSaveMessage(m) == Success(Some(true)))
    ensures SaveDecision(m, toPeer, save).Failure? ==> m.typeName == "event" && save.None? && toPeer.None?
  {
    if save.Some? {
      assert (save == Some(true)) == save.value;
    }
  }

  // ---------------------------------------------------------------------------
  // Small helpers

  /** `ACTION_TYPES`. */
  const ActionTypes: seq<string> := ["start_recording", "stop_recording", "kick"]

  /** `is_valid_action`. */
  predicate IsValidAction(name: string) {
    name in ActionTypes
  }
}
