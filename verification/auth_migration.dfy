/** Gathering the credentials of older versions into auth.json. */
module AuthMigration {
  import opened Messages

  datatype Credential = OAuth(body: string) | ApiKey(key: string)

  /** An entry of settings.apiKeys; the key is absent when its value is not a string. */
  datatype KeyEntry = KeyEntry(provider: string, key: Option<string>)

  datatype OAuthEntry = OAuthEntry(provider: string, body: string)

  /** Settings as parsed: the entries of apiKeys when that is an object, and the rest. */
  datatype Settings = Settings(apiKeys: Option<seq<KeyEntry>>, rest: string)

  /** The JSON parser and printer. */
  datatype Json = Json(oauth: string -> Option<seq<OAuthEntry>>, settings: string -> Option<Settings>, stringify: string -> string)

  datatype Dir = Dir(
    auth: Option<map<string, Credential>>, oauth: Option<string>, oauthMigrated: Option<string>, settings: Option<string>)

  /** Names that every object answers to, so that looking one up finds something. */
  const INHERITED: set<string> := {
    "constructor", "hasOwnProperty", "isPrototypeOf", "propertyIsEnumerable", "toLocaleString", "toString", "valueOf",
    "__defineGetter__", "__defineSetter__", "__lookupGetter__", "__lookupSetter__", "__proto__"
  }

  type Credentials = map<string, Credential>

  function WithOAuth(m: Credentials, entries: seq<OAuthEntry>): (r: Credentials) {
    if entries == [] then m
    else
      var last := entries[|entries| - 1];
      WithOAuth(m, entries[..|entries| - 1])[last.provider := OAuth(last.body)]
  }

  predicate Taken(m: Credentials, e: KeyEntry) {
    e.key.None? || e.provider in m || e.provider in INHERITED
  }

  function WithKeys(m: Credentials, entries: seq<KeyEntry>): (r: Credentials) {
    if entries == [] then m
    else
      var before, last := WithKeys(m, entries[..|entries| - 1]), entries[|entries| - 1];
      if Taken(before, last) then before else before[last.provider := ApiKey(last.key.value)]
  }

  function OAuthIn(j: Json, d: Dir): (r: Option<seq<OAuthEntry>>) {
    if d.oauth.None? then None else j.oauth(d.oauth.value)
  }

  function SettingsIn(j: Json, d: Dir): (r: Option<Settings>) {
    if d.settings.None? then None else j.settings(d.settings.value)
  }

  function KeysIn(j: Json, d: Dir): (r: Option<seq<KeyEntry>>) {
    if SettingsIn(j, d).None? then None else SettingsIn(j, d).value.apiKeys
  }

  function OrEmpty<T>(s: Option<seq<T>>): (r: seq<T>) {
    if s.None? then [] else s.value
  }

  /** The credentials that a migration of `d` chooses. */
  function Chosen(j: Json, d: Dir): (r: Credentials) {
    WithKeys(WithOAuth(map[], OrEmpty(OAuthIn(j, d))), OrEmpty(KeysIn(j, d)))
  }

  // ----- Which credential is chosen

  predicate DistinctOAuth(entries: seq<OAuthEntry>) {
    forall i, j | 0 <= i < j < |entries| :: entries[i].provider != entries[j].provider
  }

  predicate DistinctKeys(entries: seq<KeyEntry>) {
    forall i, j | 0 <= i < j < |entries| :: entries[i].provider != entries[j].provider
  }

  lemma {:induction false} OAuthChosen(entries: seq<OAuthEntry>, provider: string, c: Credential)
    requires DistinctOAuth(entries)
    ensures var m := WithOAuth(map[], entries);
            && (provider in m ==> m[provider].OAuth?)
            && (provider in m && m[provider] == c <==> exists i | 0 <= i < |entries| :: entries[i].provider == provider && OAuth(entries[i].body) == c)
    decreases |entries|
  {
    if entries != [] {
      var n := |entries| - 1;
      OAuthChosen(entries[..n], provider, c);
    }
  }

  lemma {:induction false} KeyChosen(m: Credentials, entries: seq<KeyEntry>, provider: string, c: Credential)
    requires DistinctKeys(entries)
    ensures var all := WithKeys(m, entries);
            && (provider in m ==> provider in all && all[provider] == m[provider])
            && (provider !in m ==>
                  (provider in all && all[provider] == c <==>
                     provider !in INHERITED &&
                     exists i | 0 <= i < |entries| :: entries[i].provider == provider && entries[i].key.Some? && ApiKey(entries[i].key.value) == c))
    decreases |entries|
  {
    hide INHERITED;
    if entries != [] {
      var n := |entries| - 1;
      KeyChosen(m, entries[..n], provider, c);
      if entries[n].provider == provider && provider !in m {
        var before := WithKeys(m, entries[..n]);
        KeyChosen(m, entries[..n], provider, if provider in before then before[provider] else c);
      }
    }
  }

  predicate HasOAuth(j: Json, d: Dir, provider: string, body: string) {
    exists i | 0 <= i < |OrEmpty(OAuthIn(j, d))| :: OrEmpty(OAuthIn(j, d))[i] == OAuthEntry(provider, body)
  }

  predicate HasKey(j: Json, d: Dir, provider: string, key: string) {
    exists i | 0 <= i < |OrEmpty(KeysIn(j, d))| :: OrEmpty(KeysIn(j, d))[i] == KeyEntry(provider, Some(key))
  }

  /** JSON objects do not name a field twice, and settings printed without their keys read back without them. */
  ghost predicate Sound(j: Json) {
    && (forall t :: j.oauth(t).Some? ==> DistinctOAuth(j.oauth(t).value))
    && (forall t :: j.settings(t).Some? && j.settings(t).value.apiKeys.Some? ==> DistinctKeys(j.settings(t).value.apiKeys.value))
    && (forall rest :: j.settings(j.stringify(rest)) == Some(Settings(None, rest)))
  }

  /** A provider's OAuth login is chosen over its API key; a key alone is chosen
      too, unless the provider bears the name of something every object has. */
  lemma ChosenExactly(j: Json, d: Dir, provider: string, text: string)
    requires Sound(j)
    ensures var c := Chosen(j, d);
            && (provider in c && c[provider] == OAuth(text) <==> HasOAuth(j, d, provider, text))
            && (provider in c && c[provider] == ApiKey(text) <==>
                  HasKey(j, d, provider, text) && provider !in INHERITED && forall b :: !HasOAuth(j, d, provider, b))
  {
    hide INHERITED, WithOAuth, WithKeys;
    var logins, keys := OrEmpty(OAuthIn(j, d)), OrEmpty(KeysIn(j, d));
    var m := WithOAuth(map[], logins);
    forall b ensures provider in m && m[provider] == OAuth(b) <==> HasOAuth(j, d, provider, b) {
      OAuthChosen(logins, provider, OAuth(b));
    }
    OAuthChosen(logins, provider, ApiKey(text));
    KeyChosen(m, keys, provider, OAuth(text));
    KeyChosen(m, keys, provider, ApiKey(text));
    if provider in m && m[provider].OAuth? {
      assert HasOAuth(j, d, provider, m[provider].body);
    }
    assert HasKey(j, d, provider, text) <==>
           exists i | 0 <= i < |keys| :: keys[i].provider == provider && keys[i].key.Some? && ApiKey(keys[i].key.value) == ApiKey(text);
  }

  /** No credential is left behind just when no key alone stands under such a name. */
  lemma EveryCredentialIsChosen(j: Json, d: Dir)
    requires Sound(j)
    ensures (forall provider, text | HasOAuth(j, d, provider, text) || HasKey(j, d, provider, text) :: provider in Chosen(j, d))
            <==> forall provider, key | HasKey(j, d, provider, key) && provider in INHERITED :: exists b :: HasOAuth(j, d, provider, b)
  {
    hide INHERITED, Chosen, HasOAuth, HasKey;
    forall provider, text
      ensures HasOAuth(j, d, provider, text) ==> provider in Chosen(j, d)
      ensures HasKey(j, d, provider, text) ==>
                (provider in Chosen(j, d) <==> provider !in INHERITED || exists b :: HasOAuth(j, d, provider, b))
    {
      ChosenExactly(j, d, provider, text);
      var c := Chosen(j, d);
      if provider in c {
        ChosenExactly(j, d, provider, if c[provider].OAuth? then c[provider].body else c[provider].key);
      }
      if b :| HasOAuth(j, d, provider, b) {
        ChosenExactly(j, d, provider, b);
      }
    }
  }

  // ----- Crashes

  /** What the system does to one run: how many of its three writes it lives to make, and which of them fail. */
  datatype Fate = Fate(steps: nat, authFails: bool, renameFails: bool, rewriteFails: bool)

  function Renamed(j: Json, d: Dir): (r: Dir) {
    if OAuthIn(j, d).Some? then Dir(d.auth, None, d.oauth, d.settings) else d
  }

  function Rewritten(j: Json, d: Dir): (r: Dir) {
    if KeysIn(j, d).Some? then Dir(d.auth, d.oauth, d.oauthMigrated, Some(j.stringify(SettingsIn(j, d).value.rest))) else d
  }

  /** The directory after one run. */
  function Run(j: Json, d: Dir, fate: Fate): (r: Dir) {
    var chosen := Chosen(j, d);
    if d.auth.Some? || fate.steps == 0 || (chosen != map[] && fate.authFails) then d
    else
      var d1 := if chosen == map[] then d else Dir(Some(chosen), d.oauth, d.oauthMigrated, d.settings);
      var d2 := if fate.steps == 1 || fate.renameFails then d1 else Renamed(j, d1);
      if fate.steps <= 2 || fate.rewriteFails then d2 else Rewritten(j, d2)
  }

  function Runs(j: Json, d: Dir, fates: seq<Fate>): (r: Dir)
    decreases |fates|
  {
    if fates == [] then d else Runs(j, Run(j, d, fates[0]), fates[1..])
  }

  predicate SourcesIntact(d: Dir, now: Dir) {
    now.oauth == d.oauth && now.settings == d.settings
  }

  /** The destination is durable before a source is destroyed. */
  predicate Safe(j: Json, d: Dir, now: Dir) {
    if now.auth.None? then SourcesIntact(d, now) else now.auth.value == Chosen(j, d)
  }

  lemma {:induction false} AuthIsFinal(j: Json, d: Dir, fates: seq<Fate>)
    requires d.auth.Some?
    ensures Runs(j, d, fates) == d
    decreases |fates|
  {
    if fates != [] {
      AuthIsFinal(j, d, fates[1..]);
    }
  }

  /** However many runs crash or fail, and wherever: while auth.json is absent
      nothing has changed, and once it is there it holds the credentials chosen
      at the very first; any run that lives to write it does. */
  lemma {:induction false} CrashSafe(j: Json, d: Dir, fates: seq<Fate>)
    requires d.auth.None? && Chosen(j, d) != map[]
    ensures var now := Runs(j, d, fates);
            && Safe(j, d, now)
            && (now.auth.None? ==> now == d)
            && (now.auth.Some? <==> exists k | 0 <= k < |fates| :: fates[k].steps > 0 && !fates[k].authFails)
    decreases |fates|
  {
    hide Chosen;
    if fates != [] {
      var next := Run(j, d, fates[0]);
      if fates[0].steps > 0 && !fates[0].authFails {
        AuthIsFinal(j, next, fates[1..]);
        assert next.auth == Some(Chosen(j, d));
      } else {
        CrashSafe(j, d, fates[1..]);
        assert forall k | 0 <= k < |fates| - 1 :: fates[1..][k] == fates[k + 1];
        assert forall k | 1 <= k < |fates| :: fates[k] == fates[1..][k - 1];
      }
    }
  }

  /** With nothing to choose, the sources are cleaned up all the same: runs are
      safe whatever happens just when there is a credential to write, or no
      readable source to clean up. */
  lemma SafeExactly(j: Json, d: Dir)
    requires d.auth.None? && Sound(j)
    ensures (forall fates :: Safe(j, d, Runs(j, d, fates)))
            <==> Chosen(j, d) != map[] || (OAuthIn(j, d).None? && KeysIn(j, d).None?)
  {
    hide Chosen, INHERITED, Sound, Runs;
    if Chosen(j, d) != map[] {
      forall fates ensures Safe(j, d, Runs(j, d, fates)) {
        CrashSafe(j, d, fates);
      }
    } else if OAuthIn(j, d).None? && KeysIn(j, d).None? {
      forall fates ensures Safe(j, d, Runs(j, d, fates)) {
        NothingToMigrate(j, d, fates);
      }
    } else {
      var fate := Fate(3, false, false, false);
      OneRun(j, d, fate);
      CleanedUpForNothing(j, d, fate);
      assert !Safe(j, d, Runs(j, d, [fate]));
    }
  }

  lemma OneRun(j: Json, d: Dir, fate: Fate)
    ensures Runs(j, d, [fate]) == Run(j, d, fate)
  {
    var fates := [fate];
    assert fates[1..] == [];
  }

  lemma CleanedUpForNothing(j: Json, d: Dir, fate: Fate)
    requires d.auth.None? && Sound(j) && Chosen(j, d) == map[] && fate == Fate(3, false, false, false)
    requires OAuthIn(j, d).Some? || KeysIn(j, d).Some?
    ensures var now := Run(j, d, fate); now.auth.None? && !SourcesIntact(d, now)
  {
    hide Chosen, INHERITED;
    if KeysIn(j, d).Some? {
      var text := d.settings.value;
      assert j.stringify(j.settings(text).value.rest) != text by {
        assert j.settings(j.stringify(j.settings(text).value.rest)) == Some(Settings(None, j.settings(text).value.rest));
      }
    }
  }

  /** Such a directory: an oauth.json without entries is moved away, and no auth.json takes its place. */
  lemma EmptyLoginIsCleanedUp(j: Json, text: string)
    requires j.oauth(text) == Some([])
    ensures Run(j, Dir(None, Some(text), None, None), Fate(3, false, false, false)) == Dir(None, None, Some(text), None)
  {
    hide INHERITED;
  }

  /** And such a key: the only one, under an inherited name, is in neither file afterwards. */
  lemma InheritedNameLosesItsKey(j: Json, text: string, rest: string)
    requires j.settings(text) == Some(Settings(Some([KeyEntry("constructor", Some("secret"))]), rest))
    ensures var d := Dir(None, None, None, Some(text));
            && HasKey(j, d, "constructor", "secret")
            && Run(j, d, Fate(3, false, false, false)) == Dir(None, None, None, Some(j.stringify(rest)))
  {
    var d := Dir(None, None, None, Some(text));
    var keys := [KeyEntry("constructor", Some("secret"))];
    assert OrEmpty(KeysIn(j, d))[0] == keys[0];
    assert keys[..0] == [] && WithKeys(map[], keys[..0]) == map[] && Taken(map[], keys[0]);
  }

  lemma {:induction false} NothingToMigrate(j: Json, d: Dir, fates: seq<Fate>)
    requires d.auth.None? && Chosen(j, d) == map[] && OAuthIn(j, d).None? && KeysIn(j, d).None?
    ensures Runs(j, d, fates) == d
    decreases |fates|
  {
    hide Chosen;
    if fates != [] {
      assert Run(j, d, fates[0]) == d;
      NothingToMigrate(j, d, fates[1..]);
    }
  }

  /** A run that nothing interrupts, in a directory without auth.json: the chosen
      credentials, if there are any, are in auth.json; a readable oauth.json has
      been set aside under another name; and settings that held keys are printed without them. */
  lemma UninterruptedRun(j: Json, d: Dir, steps: nat)
    requires d.auth.None? && steps >= 3
    ensures var now := Run(j, d, Fate(steps, false, false, false));
            && now.auth == (if Chosen(j, d) == map[] then None else Some(Chosen(j, d)))
            && (if OAuthIn(j, d).Some? then now.oauth == None && now.oauthMigrated == d.oauth
                else now.oauth == d.oauth && now.oauthMigrated == d.oauthMigrated)
            && now.settings == (if KeysIn(j, d).Some? then Some(j.stringify(j.settings(d.settings.value).value.rest)) else d.settings)
  {
    hide Chosen;
  }

  /** A source that cannot be read is left as it is, whatever happens. */
  lemma {:induction false} UnreadableStays(j: Json, d: Dir, fates: seq<Fate>)
    ensures OAuthIn(j, d).None? ==> Runs(j, d, fates).oauth == d.oauth && Runs(j, d, fates).oauthMigrated == d.oauthMigrated
    ensures KeysIn(j, d).None? ==> Runs(j, d, fates).settings == d.settings
    decreases |fates|
  {
    hide Chosen;
    if fates != [] {
      UnreadableStays(j, Run(j, d, fates[0]), fates[1..]);
    }
  }

  // ----- The migration itself

  class AgentDir {
    var auth: Option<Credentials>
    var oauth: Option<string>
    var oauthMigrated: Option<string>
    var settings: Option<string>

    function State(): (r: Dir)
      reads this
    {
      Dir(auth, oauth, oauthMigrated, settings)
    }

    /** `fate` is what the system chose to do; a run that lives and whose first write went well names its providers. */
    method MigrateAuthToAuthJson(j: Json, fate: Fate) returns (providers: Option<seq<string>>)
      modifies this
      ensures State() == Run(j, old(State()), fate)
      ensures old(auth).Some? ==> providers == Some([])
      ensures old(auth).None? ==> (providers.Some? <==> fate.steps >= 3 && (Chosen(j, old(State())) == map[] || !fate.authFails))
      ensures old(auth).None? && providers.Some? ==> forall p :: p in providers.value <==> p in Chosen(j, old(State()))
    {
      hide INHERITED, WithOAuth, WithKeys;
      NoEntries();
      if auth.Some? {
        return Some([]);
      }
      var migrated: Credentials, names, oauthReadable := map[], [], false;
      if oauth.Some? {
        var logins := j.oauth(oauth.value);
        if logins.Some? {
          migrated, names := TakeOAuth(logins.value);
          oauthReadable := true;
        }
      }
      var settingsWithoutApiKeys := None;
      if settings.Some? {
        var parsed := j.settings(settings.value);
        if parsed.Some? && parsed.value.apiKeys.Some? {
          migrated, names := TakeKeys(parsed.value.apiKeys.value, migrated, names);
          settingsWithoutApiKeys := Some(j.stringify(parsed.value.rest));
        }
      }
      assert migrated == Chosen(j, State());
      if fate.steps == 0 || (migrated != map[] && fate.authFails) {
        return None;
      }
      if migrated != map[] {
        auth := Some(migrated);
      }
      if fate.steps == 1 {
        return None;
      }
      if oauthReadable && !fate.renameFails {
        oauth, oauthMigrated := None, oauth;
      }
      if fate.steps == 2 {
        return None;
      }
      if settingsWithoutApiKeys.Some? && !fate.rewriteFails {
        settings := settingsWithoutApiKeys;
      }
      providers := Some(names);
    }
  }

  lemma NoEntries()
    ensures WithOAuth(map[], []) == map[]
    ensures forall m :: WithKeys(m, []) == m
  {
  }

  method TakeOAuth(entries: seq<OAuthEntry>) returns (migrated: Credentials, names: seq<string>)
    ensures migrated == WithOAuth(map[], entries)
    ensures forall p :: p in names <==> p in migrated
  {
    migrated, names := map[], [];
    for i := 0 to |entries|
      invariant migrated == WithOAuth(map[], entries[..i])
      invariant forall p :: p in names <==> p in migrated
    {
      assert entries[..i + 1][..i] == entries[..i];
      migrated := migrated[entries[i].provider := OAuth(entries[i].body)];
      names := names + [entries[i].provider];
    }
    assert entries[..|entries|] == entries;
  }

  method TakeKeys(entries: seq<KeyEntry>, before: Credentials, namesBefore: seq<string>)
    returns (migrated: Credentials, names: seq<string>)
    requires forall p :: p in namesBefore <==> p in before
    ensures migrated == WithKeys(before, entries)
    ensures forall p :: p in names <==> p in migrated
  {
    hide INHERITED;
    migrated, names := before, namesBefore;
    for i := 0 to |entries|
      invariant migrated == WithKeys(before, entries[..i])
      invariant forall p :: p in names <==> p in migrated
    {
      assert entries[..i + 1][..i] == entries[..i];
      if !Taken(migrated, entries[i]) {
        migrated := migrated[entries[i].provider := ApiKey(entries[i].key.value)];
        names := names + [entries[i].provider];
      }
    }
    assert entries[..|entries|] == entries;
  }
}
