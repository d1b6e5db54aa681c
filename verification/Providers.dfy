/**
  The providers configured for an application. Secrets are kept sealed; an edit
  with a blank secret keeps the stored one.
*/
module Providers {
  import opened Prelude
  import opened Upstream
  import Text

  datatype Input = Input(provider: string, clientId: string, clientSecret: string, enabled: bool)

  datatype InputField = ProviderField | ClientIdField | ClientSecretField

  datatype Answer = Saved | Invalid(fields: set<InputField>) | NotFound | Failed

  /**
    One call with what it meets. `cipher` is the fresh ciphertext of the seal, None
    when sealing fails; `saveFails` includes an application that does not exist.
  */
  datatype Call =
    | Upsert(applicationId: nat, input: Input, cipher: Option<Bytes>, readFails: bool, saveFails: bool)
    | SetEnabled(applicationId: nat, provider: string, enabled: bool, fails: bool)
    | Delete(applicationId: nat, provider: string, fails: bool)

  /** The table, and what each ciphertext opens to. */
  datatype State = State(rows: Providers, sealed: map<Bytes, string>)

  const EMPTY := State(map[], map[])

  function KeyOf(c: Call): ProviderKey {
    match c
    case Upsert(app, input, _, _, _) => ProviderKey(app, Text.ToLower(Text.TrimSpace(input.provider)))
    case SetEnabled(app, provider, _, _) => ProviderKey(app, provider)
    case Delete(app, provider, _) => ProviderKey(app, provider)
  }

  predicate IsBlank(text: string) {
    Text.TrimSpace(text) == ""
  }

  /** The fields an upsert reports, given whether the pair is configured. */
  function Errors(input: Input, key: ProviderKey, existed: bool): set<InputField> {
    (if IsSupported(key.provider) then {} else {ProviderField})
    + (if IsBlank(input.clientId) then {ClientIdField} else {})
    + (if IsBlank(input.clientSecret) && !existed then {ClientSecretField} else {})
  }

  /** A ciphertext is new each time, or there is none. */
  predicate Seals(s: State, cipher: Option<Bytes>) {
    cipher.Some? && cipher.value !in s.sealed
  }

  function UpsertStep(s: State, c: Call): (State, Answer)
    requires c.Upsert?
  {
    var key, input := KeyOf(c), c.input;
    if c.readFails then (s, Failed)
    else if !IsBlank(input.clientSecret) && !Seals(s, c.cipher) then (s, Failed)
    else
      var sealed := if IsBlank(input.clientSecret) then s.sealed else s.sealed[c.cipher.value := input.clientSecret];
      if Errors(input, key, key in s.rows) != {} then (s.(sealed := sealed), Invalid(Errors(input, key, key in s.rows)))
      else if c.saveFails then (s.(sealed := sealed), Failed)
      else
        var secret := if IsBlank(input.clientSecret) then s.rows[key].secret else c.cipher.value;
        (State(s.rows[key := Provider(Text.TrimSpace(input.clientId), secret, input.enabled)], sealed), Saved)
  }

  function Step(s: State, c: Call): (State, Answer) {
    match c
    case Upsert(_, _, _, _, _) => UpsertStep(s, c)
    case SetEnabled(_, _, enabled, fails) =>
      if fails then (s, Failed)
      else if KeyOf(c) !in s.rows then (s, NotFound)
      else (s.(rows := s.rows[KeyOf(c) := s.rows[KeyOf(c)].(enabled := enabled)]), Saved)
    case Delete(_, _, fails) =>
      if fails then (s, Failed)
      else if KeyOf(c) !in s.rows then (s, NotFound)
      else (s.(rows := s.rows - {KeyOf(c)}), Saved)
  }

  /** `Get`: the row and its opened secret. */
  function Get(s: State, key: ProviderKey): Option<(Provider, string)> {
    if key in s.rows && s.rows[key].secret in s.sealed then Some((s.rows[key], s.sealed[s.rows[key].secret])) else None
  }

  function Run(calls: seq<Call>): State {
    if calls == [] then EMPTY else Step(Run(calls[..|calls| - 1]), calls[|calls| - 1]).0
  }

  // The specification, which knows no ciphertext

  /** What a call does to one pair's secret: a successful upsert that brings one stores it, a successful delete drops it. */
  datatype Effect = Stored(secret: string) | Dropped | Kept

  function EffectOn(s: State, c: Call, key: ProviderKey): Effect {
    if KeyOf(c) != key || Step(s, c).1 != Saved then Kept
    else if c.Upsert? && !IsBlank(c.input.clientSecret) then Stored(c.input.clientSecret)
    else if c.Delete? then Dropped
    else Kept
  }

  function Effects(calls: seq<Call>, key: ProviderKey): (r: seq<Effect>)
    ensures |r| == |calls|
  {
    if calls == [] then []
    else
      var front, last := calls[..|calls| - 1], calls[|calls| - 1];
      Effects(front, key) + [EffectOn(Run(front), last, key)]
  }

  lemma {:induction false} EffectAt(calls: seq<Call>, i: nat, key: ProviderKey)
    requires i < |calls|
    ensures Effects(calls, key)[i] == EffectOn(Run(calls[..i]), calls[i], key)
  {
    var front := calls[..|calls| - 1];
    if i < |front| {
      EffectAt(front, i, key);
      assert front[..i] == calls[..i];
    }
  }

  /** The effect at i is the last store, and nothing was dropped since. */
  predicate IsCurrent(effects: seq<Effect>, i: nat) {
    i < |effects| && effects[i].Stored? && forall j :: i < j < |effects| ==> effects[j].Kept?
  }

  // One call

  ghost predicate AllOpen(s: State) {
    forall k <- s.rows :: s.rows[k].secret in s.sealed
  }

  /** A failing call leaves the table as it is; a successful one changes nothing but its own pair. */
  lemma StepIsLocal(s: State, c: Call, key: ProviderKey)
    requires AllOpen(s)
    ensures var (t, answer) := Step(s, c);
            && AllOpen(t)
            && (answer != Saved ==> t.rows == s.rows)
            && (key != KeyOf(c) || answer != Saved ==> Get(t, key) == Get(s, key))
  {
  }

  /** What a successful call makes of its own pair. */
  lemma StepOnOwnPair(s: State, c: Call)
    requires AllOpen(s) && Step(s, c).1 == Saved
    ensures var (t, key) := (Step(s, c).0, KeyOf(c));
            match c
            case Upsert(_, input, _, _, _) =>
              && IsSupported(key.provider) && Get(t, key).Some?
              && (Get(s, key) == None ==> !IsBlank(input.clientSecret))
              && Get(t, key).value.1 == (if IsBlank(input.clientSecret) then Get(s, key).value.1 else input.clientSecret)
              && Get(t, key).value.0.clientId == Text.TrimSpace(input.clientId) != ""
              && Get(t, key).value.0.enabled == input.enabled
            case SetEnabled(_, _, enabled, _) =>
              && Get(s, key).Some?
              && Get(t, key) == Some((Get(s, key).value.0.(enabled := enabled), Get(s, key).value.1))
            case Delete(_, _, _) => Get(s, key).Some? && Get(t, key) == None
  {
  }

  /** Which fields an upsert has to name, when its statements and its seal work. */
  predicate IsFaulty(s: State, c: Call, field: InputField)
    requires c.Upsert?
  {
    match field
    case ProviderField => Text.ToLower(Text.TrimSpace(c.input.provider)) !in ["google", "github"]
    case ClientIdField => Text.TrimSpace(c.input.clientId) == ""
    case ClientSecretField => Text.TrimSpace(c.input.clientSecret) == "" && Get(s, KeyOf(c)) == None
  }

  /** An upsert is saved exactly when no field is at fault, and otherwise names exactly those that are. */
  lemma UpsertSavesExactly(s: State, c: Call)
    requires AllOpen(s) && c.Upsert? && !c.readFails && !c.saveFails && Seals(s, c.cipher)
    ensures var answer := Step(s, c).1;
            && (answer == Saved <==> forall field :: !IsFaulty(s, c, field))
            && (answer != Saved ==> answer.Invalid? && forall field :: field in answer.fields <==> IsFaulty(s, c, field))
  {
    assert IsSupported(KeyOf(c).provider) <==> Text.ToLower(Text.TrimSpace(c.input.provider)) in ["google", "github"];
    var errors := Errors(c.input, KeyOf(c), KeyOf(c) in s.rows);
    forall field ensures field in errors <==> IsFaulty(s, c, field) {
    }
  }

  /** Toggling and deleting succeed exactly for a pair that is there. */
  lemma OthersSaveExactly(s: State, c: Call)
    requires AllOpen(s) && !c.Upsert? && !c.fails
    ensures Step(s, c).1 == if Get(s, KeyOf(c)).Some? then Saved else NotFound
  {
  }

  // Whole histories

  lemma {:induction false} AllOpenAlways(calls: seq<Call>)
    ensures AllOpen(Run(calls))
  {
    if calls != [] {
      AllOpenAlways(calls[..|calls| - 1]);
      StepIsLocal(Run(calls[..|calls| - 1]), calls[|calls| - 1], KeyOf(calls[|calls| - 1]));
    }
  }

  lemma EffectOfStep(s: State, c: Call, key: ProviderKey)
    requires AllOpen(s)
    ensures var after := Get(Step(s, c).0, key);
            match EffectOn(s, c, key)
            case Stored(secret) => after.Some? && after.value.1 == secret
            case Dropped => after == None
            case Kept => after.Some? == Get(s, key).Some? && (after.Some? ==> after.value.1 == Get(s, key).value.1)
  {
    StepIsLocal(s, c, key);
    if KeyOf(c) == key && Step(s, c).1 == Saved {
      StepOnOwnPair(s, c);
    }
  }

  /** `Get` finds a pair exactly when a secret is current, and returns that secret as it was submitted. */
  lemma {:induction false} GetReturnsCurrentSecret(calls: seq<Call>, key: ProviderKey)
    ensures var got, effects := Get(Run(calls), key), Effects(calls, key);
            && (got.Some? <==> exists i :: IsCurrent(effects, i))
            && (forall i: nat :: IsCurrent(effects, i) ==> got.Some? && got.value.1 == effects[i].secret)
  {
    if calls != [] {
      var n := |calls| - 1;
      var front := calls[..n];
      GetReturnsCurrentSecret(front, key);
      AllOpenAlways(front);
      EffectOfStep(Run(front), calls[n], key);
      var last := EffectOn(Run(front), calls[n], key);
      CurrentAfter(Effects(front, key), last);
      assert Effects(calls, key) == Effects(front, key) + [last];
    }
  }

  /** One more effect keeps the current store, replaces it, or ends it. */
  lemma CurrentAfter(effects: seq<Effect>, last: Effect)
    ensures forall i: nat :: IsCurrent(effects + [last], i) <==>
              if last.Kept? then IsCurrent(effects, i) else last.Stored? && i == |effects|
    ensures (exists i :: IsCurrent(effects + [last], i)) <==>
              if last.Kept? then exists i :: IsCurrent(effects, i) else last.Stored?
  {
    var longer := effects + [last];
    forall i: nat
      ensures IsCurrent(longer, i) <==>
                if last.Kept? then IsCurrent(effects, i) else last.Stored? && i == |effects|
    {
      assert longer[|effects|] == last;
      assert forall j :: 0 <= j < |effects| ==> longer[j] == effects[j];
    }
    if last.Stored? {
      assert IsCurrent(longer, |effects|);
    }
    if i: nat :| IsCurrent(effects, i) {
      assert last.Kept? ==> IsCurrent(longer, i);
    }
  }

  // The service as it is written

  class ProviderService {
    var rows: Providers
    var sealed: map<Bytes, string>

    function Contents(): State
      reads this
    {
      State(rows, sealed)
    }

    constructor ()
      ensures Contents() == EMPTY
    {
      rows, sealed := map[], map[];
    }

    method Upsert(applicationId: nat, input: Input, cipher: Option<Bytes>, readFails: bool, saveFails: bool)
      returns (answer: Answer)
      modifies this
      ensures (Contents(), answer) == Step(old(Contents()), Call.Upsert(applicationId, input, cipher, readFails, saveFails))
    {
      var errors := {};
      var provider := Text.ToLower(Text.TrimSpace(input.provider));
      if !IsSupported(provider) {
        errors := errors + {ProviderField};
      }
      var clientId := Text.TrimSpace(input.clientId);
      if clientId == "" {
        errors := errors + {ClientIdField};
      }
      if readFails {
        return Failed;
      }
      var key := ProviderKey(applicationId, provider);
      var existed := key in rows;
      var encrypted: Bytes := [];
      if Text.TrimSpace(input.clientSecret) != "" {
        if cipher == None || cipher.value in sealed {
          return Failed;
        }
        encrypted := cipher.value;
        sealed := sealed[encrypted := input.clientSecret];
      } else if existed {
        encrypted := rows[key].secret;
      } else {
        errors := errors + {ClientSecretField};
      }
      assert errors == Errors(input, key, existed);
      if errors != {} {
        return Invalid(errors);
      }
      if saveFails {
        return Failed;
      }
      rows := rows[key := Provider(clientId, encrypted, input.enabled)];
      return Saved;
    }

    method SetEnabled(applicationId: nat, provider: string, enabled: bool, fails: bool) returns (answer: Answer)
      modifies this`rows
      ensures (Contents(), answer) == Step(old(Contents()), Call.SetEnabled(applicationId, provider, enabled, fails))
    {
      var key := ProviderKey(applicationId, provider);
      if fails {
        return Failed;
      }
      if key !in rows {
        return NotFound;
      }
      rows := rows[key := rows[key].(enabled := enabled)];
      return Saved;
    }

    method Delete(applicationId: nat, provider: string, fails: bool) returns (answer: Answer)
      modifies this`rows
      ensures (Contents(), answer) == Step(old(Contents()), Call.Delete(applicationId, provider, fails))
    {
      var key := ProviderKey(applicationId, provider);
      if fails {
        return Failed;
      }
      if key !in rows {
        return NotFound;
      }
      rows := rows - {key};
      return Saved;
    }

    method Read(applicationId: nat, provider: string) returns (found: Option<(Provider, string)>)
      ensures found == Get(Contents(), ProviderKey(applicationId, provider))
    {
      var key := ProviderKey(applicationId, provider);
      if key !in rows {
        return None;
      }
      var record := rows[key];
      if record.secret !in sealed {
        return None;
      }
      return Some((record, sealed[record.secret]));
    }
  }
}
