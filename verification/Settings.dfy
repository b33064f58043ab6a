/** The configuration service: stored and environment values, the masked view for the UI, and its echo. */
module Settings {
  import opened Options

  const BULLET: char := '\U{2022}'

  const SENSITIVE_KEYS := {"embedding_api_key", "llm_api_key", "vision_api_key", "smtp_password", "webhook_secret"}
  const PER_PROVIDER_PREFIX := "embedding_api_key__"

  const ALL_CONFIG_KEYS: seq<string> := [
    "active_embedding_model_spec_id", "embedding_api_key__google", "embedding_api_key__openai", "embedding_base_url",
    "active_llm_model_spec_id", "llm_api_key", "llm_base_url", "llm_custom_model_id",
    "active_vision_model_spec_id", "vision_api_key", "vision_base_url", "vision_custom_model_id",
    "embedding_custom_model_id",
    "llm_provider", "llm_model_id", "vision_provider", "vision_model_id",
    "session_timeout_minutes",
    "embedding_provider", "embedding_model_id", "embedding_api_key", "embedding_dimensions"]

  predicate IsConfigKey(key: string) { key in ALL_CONFIG_KEYS }

  predicate IsSensitive(key: string) {
    key in SENSITIVE_KEYS || PER_PROVIDER_PREFIX <= key
  }

  /** Encryption as the service sees it: decryption may fail, and then the raw value is used. */
  datatype Cipher = Cipher(encrypt: string -> string, decrypt: string -> Option<string>) {
    ghost predicate Sound() {
      forall v :: decrypt(encrypt(v)) == Some(v) && encrypt(v) != ""
    }

    function Plain(stored: string): string {
      match decrypt(stored)
      case None => stored
      case Some(v) => v
    }
  }

  datatype Store = Store(db: map<string, string>, env: map<string, string>)

  /** Database first, unless the row is missing or empty; then the environment. */
  function Get(c: Cipher, s: Store, key: string): Option<string> {
    if key in s.db && s.db[key] != "" then Some(if IsSensitive(key) then c.Plain(s.db[key]) else s.db[key])
    else if key in s.env then Some(s.env[key])
    else None
  }

  function Stored(c: Cipher, key: string, value: string): string {
    if IsSensitive(key) && value != "" then c.encrypt(value) else value
  }

  function Set(c: Cipher, s: Store, key: string, value: string): Store {
    s.(db := s.db[key := Stored(c, key, value)])
  }

  /** A stored secret never decrypts to nothing: nothing is ever encrypted from an empty value. */
  ghost predicate WellStored(c: Cipher, s: Store) {
    forall k | k in s.db && s.db[k] != "" && IsSensitive(k) :: c.Plain(s.db[k]) != ""
  }

  // ----- the masked view -----

  function Bullets(n: nat): (r: string)
    ensures |r| == n && forall i | 0 <= i < n :: r[i] == BULLET
  {
    seq(n, i => BULLET)
  }

  function Mask(v: string): string {
    if |v| > 8 then Bullets(8) + v[|v| - 4..] else Bullets(|v|)
  }

  function Shown(c: Cipher, s: Store, key: string): Option<string> {
    match Get(c, s, key)
    case None => None
    case Some(v) => if IsSensitive(key) && v != "" then Some(Mask(v)) else Some(v)
  }

  datatype Ui = Ui(values: map<string, Option<string>>, configured: map<string, bool>)

  /** Masks of two secrets agree exactly when both are long and end alike, or both are short and as long as each other. */
  lemma MaskEqualIff(v: string, w: string)
    ensures Mask(v) == Mask(w) <==>
              (|v| > 8 && |w| > 8 && v[|v| - 4..] == w[|w| - 4..]) || (|v| <= 8 && |w| <= 8 && |v| == |w|)
  {
    if |v| > 8 && |w| > 8 {
      assert Mask(v)[8..] == v[|v| - 4..] && Mask(w)[8..] == w[|w| - 4..];
    }
  }

  // ----- which values are secrets -----

  /** The providers' keys, the mail password and the webhook secret. */
  ghost predicate Credential(key: string) {
    || key == "llm_api_key" || key == "vision_api_key" || key == "embedding_api_key"
    || key == "smtp_password" || key == "webhook_secret"
    || exists provider :: key == "embedding_api_key__" + provider
  }

  lemma SensitiveIff(key: string)
    ensures IsSensitive(key) <==> Credential(key)
  {
    if PER_PROVIDER_PREFIX <= key {
      assert key == "embedding_api_key__" + key[|PER_PROVIDER_PREFIX|..];
    }
    hide IsSensitive;
    if provider :| key == "embedding_api_key__" + provider { ProviderKey(provider); }
  }

  lemma ProviderKey(provider: string)
    ensures IsSensitive("embedding_api_key__" + provider)
  {}

  /** Credentials are encrypted at rest, and nothing else is; an empty value is stored as it is. */
  lemma SecretsAtRest(c: Cipher, s: Store, key: string, value: string)
    ensures Set(c, s, key, value).db[key] == if Credential(key) && value != "" then c.encrypt(value) else value
  {
    SensitiveIff(key);
    hide Credential, IsSensitive;
  }

  /** A stored value is read back as it was set; one that does not decrypt, say under another key, as it stands. */
  lemma ReadsBack(c: Cipher, s: Store, key: string, value: string)
    requires value != ""
    ensures c.Sound() ==> Get(c, Set(c, s, key, value), key) == Some(value)
    ensures c.decrypt(value) == None ==> Get(c, s.(db := s.db[key := value]), key) == Some(value)
  {
    if c.Sound() { assert c.decrypt(c.encrypt(value)) == Some(value) && c.encrypt(value) != ""; }
    hide IsSensitive;
  }

  /** The view tells of a credential no more than its last four characters, and of a short one only its length. */
  lemma SecretsShown(c: Cipher, s: Store, key: string, v: string)
    requires Get(c, s, key) == Some(v)
    ensures Shown(c, s, key).Some?
    ensures var shown := Shown(c, s, key).value;
            if !Credential(key) then shown == v
            else if |v| <= 8 then |shown| == |v| && AllBullets(shown)
            else |shown| == 12 && AllBullets(shown[..8]) && shown[8..] == v[|v| - 4..]
  {
    SensitiveIff(key);
    hide Credential, IsSensitive, Get;
  }

  // ----- writing a batch -----

  predicate Masked(value: string) { Bullets(4) <= value }

  function Put(c: Cipher, s: Store, key: string, value: string): Store {
    if !IsConfigKey(key) || Masked(value) then s else Set(c, s, key, value)
  }

  function SetBatch(c: Cipher, s: Store, updates: seq<(string, string)>): Store {
    if updates == [] then s
    else
      var last := updates[|updates| - 1];
      Put(c, SetBatch(c, s, updates[..|updates| - 1]), last.0, last.1)
  }

  /** The non-null values of the view, key by key. */
  function EchoOf(c: Cipher, s: Store, keys: seq<string>): seq<(string, string)> {
    if keys == [] then []
    else
      var key := keys[|keys| - 1];
      EchoOf(c, s, keys[..|keys| - 1]) + if Shown(c, s, key).Some? then [(key, Shown(c, s, key).value)] else []
  }

  function Echo(c: Cipher, s: Store): seq<(string, string)> { EchoOf(c, s, ALL_CONFIG_KEYS) }

  lemma {:induction false} SetBatchKeepsStored(c: Cipher, s: Store, updates: seq<(string, string)>)
    requires c.Sound() && WellStored(c, s)
    ensures WellStored(c, SetBatch(c, s, updates))
  {
    if updates != [] {
      SetBatchKeepsStored(c, s, updates[..|updates| - 1]);
      hide Masked, IsSensitive;
    }
  }

  /** Only the keys named in the batch can change. */
  lemma {:induction false} UntouchedKey(c: Cipher, s: Store, updates: seq<(string, string)>, key: string)
    requires forall u | u in updates :: u.0 != key
    ensures key in SetBatch(c, s, updates).db <==> key in s.db
    ensures key in s.db ==> SetBatch(c, s, updates).db[key] == s.db[key]
    ensures SetBatch(c, s, updates).env == s.env
  {
    if updates != [] {
      var init, last := updates[..|updates| - 1], updates[|updates| - 1];
      assert updates == init + [last];
      UntouchedKey(c, s, init, key);
      hide Masked, IsSensitive;
    }
  }

  lemma BatchEmpty(c: Cipher, s: Store)
    ensures SetBatch(c, s, []) == s
  {}

  lemma BatchSnoc(c: Cipher, s: Store, updates: seq<(string, string)>, u: (string, string))
    ensures SetBatch(c, s, updates + [u]) == Put(c, SetBatch(c, s, updates), u.0, u.1)
  {
    assert (updates + [u])[..|updates|] == updates;
  }

  lemma PutRow(c: Cipher, s: Store, t: Store, k: string, value: string, key: string)
    ensures Put(c, s, k, value).env == s.env
    ensures k != key ==> Row(Put(c, s, k, value), key) == Row(s, key)
    ensures Row(s, key) == Row(t, key) ==> Row(Put(c, s, k, value), key) == Row(Put(c, t, k, value), key)
  {
    hide Masked, Stored;
  }

  /** Putting the same value again changes nothing more. */
  lemma PutTwice(c: Cipher, s: Store, t: Store, key: string, value: string)
    requires Row(s, key) == Row(Put(c, t, key, value), key)
    ensures Row(Put(c, s, key, value), key) == Row(Put(c, t, key, value), key)
  {
    hide Masked, Stored;
  }

  /** Writing back what is shown for one key leaves that key's row as `Put` leaves it, whatever the other keys do. */
  lemma {:induction false} EchoRow(c: Cipher, s: Store, base: Store, keys: seq<string>, key: string)
    ensures var after := SetBatch(c, base, EchoOf(c, s, keys));
            && after.env == base.env
            && Row(after, key) == if key in keys then Row(Rewritten(c, s, base, key), key) else Row(base, key)
  {
    if keys != [] {
      var init, k := keys[..|keys| - 1], keys[|keys| - 1];
      assert keys == init + [k];
      EchoRow(c, s, base, init, key);
      var before := SetBatch(c, base, EchoOf(c, s, init));
      if Shown(c, s, k).Some? {
        var v := Shown(c, s, k).value;
        BatchSnoc(c, base, EchoOf(c, s, init), (k, v));
        assert EchoOf(c, s, keys) == EchoOf(c, s, init) + [(k, v)];
        PutRow(c, before, base, k, v, key);
        if k == key && key in init { PutTwice(c, before, base, key, v); }
      } else {
        assert EchoOf(c, s, keys) == EchoOf(c, s, init);
      }
    }
    hide Shown, Put, Row;
  }

  function Row(s: Store, key: string): Option<string> { if key in s.db then Some(s.db[key]) else None }

  function Rewritten(c: Cipher, s: Store, base: Store, key: string): Store {
    match Shown(c, s, key)
    case None => base
    case Some(v) => Put(c, base, key, v)
  }

  predicate AllBullets(v: string) { forall i | 0 <= i < |v| :: v[i] == BULLET }

  /** A secret survives being shown and sent back. */
  predicate EchoSafe(c: Cipher, s: Store, key: string) {
    match Get(c, s, key)
    case None => true
    case Some(v) => !IsSensitive(key) || |v| == 0 || |v| >= 4 || AllBullets(v)
  }

  lemma MaskedWhenLong(v: string)
    ensures Masked(Mask(v)) <==> |v| >= 4
  {
    if |v| > 8 {
      assert Mask(v)[..4] == Bullets(4);
    } else if |v| >= 4 {
      assert Bullets(|v|)[..4] == Bullets(4);
    }
  }

  lemma RewrittenGet(c: Cipher, s: Store, key: string)
    requires c.Sound() && WellStored(c, s) && key in ALL_CONFIG_KEYS
    ensures Get(c, Rewritten(c, s, s, key), key) == Get(c, s, key) <==> EchoSafe(c, s, key)
  {
    var g := Get(c, s, key);
    if key in s.db && s.db[key] != "" && IsSensitive(key) { SecretNotEmpty(c, s, key); }
    if g.Some? {
      MaskedWhenLong(g.value);
      if |g.value| <= 8 && IsSensitive(key) { assert AllBullets(g.value) <==> g.value == Bullets(|g.value|); }
      assert c.decrypt(c.encrypt(Mask(g.value))) == Some(Mask(g.value)) && c.encrypt(Mask(g.value)) != "";
    }
    hide IsSensitive, Masked, Cipher.Sound, WellStored;
  }

  lemma SecretNotEmpty(c: Cipher, s: Store, key: string)
    requires WellStored(c, s) && key in s.db && s.db[key] != "" && IsSensitive(key)
    ensures c.Plain(s.db[key]) != ""
  {}

  lemma GetByRow(c: Cipher, s: Store, t: Store, key: string)
    requires Row(s, key) == Row(t, key) && s.env == t.env
    ensures Get(c, s, key) == Get(c, t, key)
  {}

  /**
   Sending the masked view back leaves the effective value of every key as it was exactly when every secret
   is empty, has at least four characters, or consists of bullets.
   */
  lemma EchoHarmlessIff(c: Cipher, s: Store)
    requires c.Sound() && WellStored(c, s)
    ensures (forall key :: Get(c, SetBatch(c, s, Echo(c, s)), key) == Get(c, s, key)) <==>
            (forall key | key in ALL_CONFIG_KEYS :: EchoSafe(c, s, key))
  {
    var after := SetBatch(c, s, Echo(c, s));
    forall key ensures Get(c, after, key) == Get(c, s, key) <==> (key in ALL_CONFIG_KEYS ==> EchoSafe(c, s, key)) {
      EchoRow(c, s, s, ALL_CONFIG_KEYS, key);
      if key in ALL_CONFIG_KEYS {
        GetByRow(c, after, Rewritten(c, s, s, key), key);
        RewrittenGet(c, s, key);
      } else {
        GetByRow(c, after, s, key);
      }
    }
    hide Get, SetBatch, EchoSafe, Cipher.Sound, WellStored, EchoOf;
  }

  /** The effective value after a value is written that does not look masked: an empty one falls back to the environment. */
  function Written(s: Store, key: string, value: string): Option<string> {
    if value != "" then Some(value) else if key in s.env then Some(s.env[key]) else None
  }

  lemma PutGet(c: Cipher, s: Store, key: string, value: string)
    requires c.Sound() && IsConfigKey(key)
    ensures Get(c, Put(c, s, key, value), key) == if Masked(value) then Get(c, s, key) else Written(s, key, value)
  {
    assert c.decrypt(c.encrypt(value)) == Some(value) && c.encrypt(value) != "";
    hide IsSensitive, Masked, Cipher.Sound, IsConfigKey;
  }

  /** What an echo of `was` leaves of one key in `now`. */
  function RestoredBy(c: Cipher, was: Store, now: Store, key: string): Option<string> {
    match Shown(c, was, key)
    case None => Get(c, now, key)
    case Some(v) => if Masked(v) then Get(c, now, key) else Written(now, key, v)
  }

  /**
   A view read from one state and sent back into a later one: a key keeps its later value exactly if it is
   unknown, was unset, was shown masked by at least four bullets, or would be written with that value. All other
   keys go back to what the view showed, whatever has been set in between.
   */
  lemma StaleEcho(c: Cipher, was: Store, now: Store, key: string)
    requires c.Sound()
    ensures Get(c, SetBatch(c, now, Echo(c, was)), key) ==
              if key in ALL_CONFIG_KEYS then RestoredBy(c, was, now, key) else Get(c, now, key)
  {
    var after := SetBatch(c, now, Echo(c, was));
    EchoRow(c, was, now, ALL_CONFIG_KEYS, key);
    if key in ALL_CONFIG_KEYS {
      GetByRow(c, after, Rewritten(c, was, now, key), key);
      if Shown(c, was, key).Some? { PutGet(c, now, key, Shown(c, was, key).value); }
    } else {
      GetByRow(c, after, now, key);
    }
    hide Get, Put, Shown, SetBatch, Written, Masked, Cipher.Sound, EchoOf;
  }

  /** In particular a key that is no secret goes back to its old value. */
  lemma StaleEchoReverts(c: Cipher, was: Store, now: Store, key: string)
    requires c.Sound() && key in ALL_CONFIG_KEYS && !IsSensitive(key)
    requires Get(c, was, key).Some? && Get(c, was, key).value != "" && !Masked(Get(c, was, key).value)
    ensures Get(c, SetBatch(c, now, Echo(c, was)), key) == Get(c, was, key)
  {
    StaleEcho(c, was, now, key);
    hide Get, SetBatch, Masked, EchoOf, Cipher.Sound;
  }

  /** A secret of one to three characters is replaced by that many bullets. */
  lemma ShortSecretLost(c: Cipher, s: Store, key: string)
    requires c.Sound() && key in ALL_CONFIG_KEYS && IsSensitive(key)
    requires Get(c, s, key).Some? && 1 <= |Get(c, s, key).value| <= 3
    ensures Get(c, SetBatch(c, s, Echo(c, s)), key) == Some(Bullets(|Get(c, s, key).value|))
  {
    StaleEcho(c, s, s, key);
    MaskedWhenLong(Get(c, s, key).value);
    hide Get, SetBatch, Masked, EchoOf, Cipher.Sound, IsSensitive;
  }

  // ----- the service -----

  class ConfigService {
    const cipher: Cipher
    const env: map<string, string>
    var db: map<string, string>

    function View(): Store
      reads this
    {
      Store(db, env)
    }

    constructor (cipher: Cipher, env: map<string, string>, db: map<string, string>)
      ensures this.cipher == cipher && View() == Store(db, env)
    {
      this.cipher := cipher;
      this.env := env;
      this.db := db;
    }

    method SetValue(key: string, value: string)
      modifies this`db
      ensures View() == Set(cipher, old(View()), key, value)
    {
      var storeValue := value;
      if IsSensitive(key) && value != "" { storeValue := cipher.encrypt(value); }
      db := db[key := storeValue];
    }

    /** Unknown keys are refused, masked values are taken for unchanged ones. */
    method WriteBatch(updates: seq<(string, string)>) returns (results: seq<(string, bool)>)
      modifies this`db
      ensures View() == SetBatch(cipher, old(View()), updates)
      ensures |results| == |updates|
      ensures forall i | 0 <= i < |updates| :: results[i] == (updates[i].0, IsConfigKey(updates[i].0))
    {
      hide IsConfigKey, IsSensitive, SetBatch, Stored;
      results := [];
      BatchEmpty(cipher, View());
      for i := 0 to |updates|
        invariant View() == SetBatch(cipher, old(View()), updates[..i])
        invariant |results| == i
        invariant forall k | 0 <= k < i :: results[k] == (updates[k].0, IsConfigKey(updates[k].0))
      {
        assert updates[..i + 1] == updates[..i] + [updates[i]];
        BatchSnoc(cipher, old(View()), updates[..i], updates[i]);
        var key, value := updates[i].0, updates[i].1;
        if !IsConfigKey(key) {
          results := results + [(key, false)];
          continue;
        }
        if value != "" && Masked(value) {
          results := results + [(key, true)];
          continue;
        }
        SetValue(key, value);
        results := results + [(key, true)];
      }
      assert updates[..|updates|] == updates;
    }

    method GetAllForUi() returns (ui: Ui)
      ensures forall k :: k in ui.values <==> k in ALL_CONFIG_KEYS
      ensures forall k | k in ui.values :: ui.values[k] == Shown(cipher, View(), k)
      ensures forall k :: k in ui.configured <==> k in ALL_CONFIG_KEYS && IsSensitive(k)
      ensures forall k | k in ui.configured :: ui.configured[k] <==> Get(cipher, View(), k).Some? && Get(cipher, View(), k) != Some("")
    {
      hide IsSensitive;
      var values: map<string, Option<string>>, configured: map<string, bool> := map[], map[];
      var keys := ALL_CONFIG_KEYS;
      for i := 0 to |keys|
        invariant forall k :: k in values <==> k in keys[..i]
        invariant forall k | k in values :: values[k] == Shown(cipher, View(), k)
        invariant forall k :: k in configured <==> k in keys[..i] && IsSensitive(k)
        invariant forall k | k in configured :: configured[k] <==> Get(cipher, View(), k).Some? && Get(cipher, View(), k) != Some("")
      {
        assert keys[..i + 1] == keys[..i] + [keys[i]];
        var key := keys[i];
        var value := Get(cipher, View(), key);
        if IsSensitive(key) && value.Some? && value.value != "" {
          var v := value.value;
          values := values[key := Some(if |v| > 8 then Bullets(8) + v[|v| - 4..] else Bullets(|v|))];
          configured := configured[key := true];
        } else {
          values := values[key := value];
          if IsSensitive(key) { configured := configured[key := false]; }
        }
      }
      assert keys[..|keys|] == keys;
      ui := Ui(values, configured);
    }
  }
}
