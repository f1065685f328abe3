/** The persisted application settings and the server-enablement bookkeeping (AppStore.ts).
    The store is the record of its four fields; `safeStorage` is an oracle. */
module AppStore {
  import opened Wrappers
  import opened ServerConfigs

  /** The platform's `safeStorage`: whether encryption is available, the encryption of a string
      written as base64 text, and its inverse, which may fail (a thrown error). */
  datatype SafeStorage = SafeStorage(available: bool, encrypt: string -> string, decrypt: string -> Option<string>)

  /** What the `save…ApiKey` methods store for `plaintext`: its encryption, or the text itself
      when encryption is unavailable. */
  function Sealed(plaintext: string, safe: SafeStorage): (stored: string)
    ensures !safe.available ==> stored == plaintext
  {
    if safe.available then safe.encrypt(plaintext) else plaintext
  }

  /** What the `load…ApiKey` methods return for the stored string: nothing when it is empty, the
      string itself when encryption is unavailable, otherwise its decryption (nothing when that
      fails). */
  function Unsealed(stored: string, safe: SafeStorage): (r: Option<string>)
    ensures stored == "" ==> r == None
    ensures !safe.available && stored != "" ==> r == Some(stored)
    ensures safe.available && stored != "" ==> r == safe.decrypt(stored)
  {
    if stored == "" then None
    else if !safe.available then Some(stored)
    else safe.decrypt(stored)
  }

  /** A saved non-empty key loads back, provided the platform cipher inverts itself and never
      yields an empty text. Without encryption that holds unconditionally. */
  lemma SealRoundTrip(plaintext: string, safe: SafeStorage)
    requires plaintext != ""
    requires safe.available ==> safe.encrypt(plaintext) != "" && safe.decrypt(safe.encrypt(plaintext)) == Some(plaintext)
    ensures Unsealed(Sealed(plaintext, safe), safe) == Some(plaintext)
  {
  }

  /** Saving the empty key without encryption leaves the store looking as if no key was saved. */
  lemma SealEmptyNoKey(safe: SafeStorage)
    requires !safe.available
    ensures Sealed("", safe) == "" && Unsealed(Sealed("", safe), safe) == None
  {
  }

  /** The ids known to the store: the built-in ones and those of the custom servers. */
  predicate Known(id: string, custom: seq<ServerConfig>) {
    id in IdsOf(BuiltinServers + custom)
  }

  /** The enabled ids `getEnabledServerIds` returns: the stored ones that are known, in stored
      order, or the built-in defaults when none of them is. */
  function EnabledIds(stored: seq<string>, custom: seq<ServerConfig>): (ids: seq<string>)
    ensures ids != []
    ensures forall i :: 0 <= i < |ids| ==> Known(ids[i], custom)
  {
    DefaultsNonEmpty();
    DefaultsKnown(custom);
    var valid := ValidIds(stored, custom);
    if valid == [] then DefaultEnabledIds() else valid
  }

  /** The stored ids that are known, in stored order. */
  function ValidIds(stored: seq<string>, custom: seq<ServerConfig>): seq<string> {
    Filter(stored, id => Known(id, custom))
  }

  /** The stored list once `getEnabledServerIds` has run: reset to the defaults when none of its
      ids is known. */
  function StoredAfterQuery(stored: seq<string>, custom: seq<ServerConfig>): seq<string> {
    if ValidIds(stored, custom) == [] then DefaultEnabledIds() else stored
  }

  /** The built-in ids are the three built-in servers' ids, in order. */
  lemma BuiltinIds(custom: seq<ServerConfig>)
    ensures IdsOf(BuiltinServers + custom)[..3] == [DuckDuckGoId, WebFetchId, BraveSearchId]
  {
    var all := BuiltinServers + custom;
    assert all[0] == BuiltinServers[0] && all[1] == BuiltinServers[1] && all[2] == BuiltinServers[2];
  }

  /** The defaults are known whatever the custom servers. */
  lemma DefaultsKnown(custom: seq<ServerConfig>)
    ensures forall i :: 0 <= i < |DefaultEnabledIds()| ==> Known(DefaultEnabledIds()[i], custom)
  {
    DefaultEnabledIdsValue();
    BuiltinIds(custom);
    var ids := IdsOf(BuiltinServers + custom);
    assert ids[0] == DuckDuckGoId && ids[1] == WebFetchId;
  }

  lemma DefaultsNonEmpty()
    ensures DefaultEnabledIds() != []
  {
    DefaultEnabledIdsValue();
  }

  /** The enabled ids are never empty and are all known; they are the stored ones exactly when
      one of those is known, and otherwise the defaults. */
  lemma EnabledIdsShape(stored: seq<string>, custom: seq<ServerConfig>)
    ensures var ids := EnabledIds(stored, custom);
      && ids != []
      && (forall i :: 0 <= i < |ids| ==> Known(ids[i], custom))
      && ((exists i :: 0 <= i < |stored| && Known(stored[i], custom)) ==> ids == ValidIds(stored, custom))
      && ((forall i :: 0 <= i < |stored| ==> !Known(stored[i], custom)) ==> ids == DefaultEnabledIds())
  {
    DefaultsNonEmpty();
    DefaultsKnown(custom);
    var p := (id: string) => Known(id, custom);
    var valid := Filter(stored, p);
    if exists i :: 0 <= i < |stored| && Known(stored[i], custom) {
      var i :| 0 <= i < |stored| && Known(stored[i], custom);
      assert p(stored[i]);
      assert stored[i] in valid;
    }
  }

  /** Asking again, with what the first call left in the store, gives the same ids. */
  lemma EnabledIdsStable(stored: seq<string>, custom: seq<ServerConfig>)
    ensures EnabledIds(StoredAfterQuery(stored, custom), custom) == EnabledIds(stored, custom)
  {
    var p := (id: string) => Known(id, custom);
    var valid := Filter(stored, p);
    if valid == [] {
      DefaultsKnown(custom);
      DefaultsNonEmpty();
      FilterAll(DefaultEnabledIds(), p);
    }
  }

  /** `setServerEnabled`'s new list: `id` appended when enabling an absent id, every occurrence
      removed when disabling, otherwise unchanged. */
  function Toggled(current: seq<string>, id: string, enabled: bool): (r: seq<string>)
    ensures enabled ==> id in r
    ensures !enabled ==> id !in r
    ensures forall x :: x in r ==> x in current || x == id
  {
    if enabled && id !in current then current + [id]
    else if !enabled then Filter(current, sid => sid != id)
    else current
  }

  /** After enabling, the id is present and nothing else is added; after disabling, the id is
      absent and every other id stays. */
  lemma ToggledMembers(current: seq<string>, id: string, enabled: bool, x: string)
    ensures enabled ==> (x in Toggled(current, id, true) <==> x in current || x == id)
    ensures !enabled ==> (x in Toggled(current, id, false) <==> x in current && x != id)
  {
    if !enabled && x in current && x != id {
      var p := (sid: string) => sid != id;
      var i :| 0 <= i < |current| && current[i] == x;
      assert p(current[i]);
    }
  }

  /** Enabling twice is enabling once. */
  lemma EnableIdempotent(current: seq<string>, id: string)
    ensures Toggled(Toggled(current, id, true), id, true) == Toggled(current, id, true)
  {
  }

  /** Disabling twice is disabling once. */
  lemma DisableIdempotent(current: seq<string>, id: string)
    ensures Toggled(Toggled(current, id, false), id, false) == Toggled(current, id, false)
  {
    FilterIdempotent(current, sid => sid != id);
  }

  /** No id appears twice. */
  predicate NoDuplicates(ids: seq<string>) {
    forall i, j :: 0 <= i < j < |ids| ==> ids[i] != ids[j]
  }

  lemma {:induction false} FilterNoDuplicates(s: seq<string>, p: string -> bool)
    requires NoDuplicates(s)
    ensures NoDuplicates(Filter(s, p))
  {
    if s != [] {
      FilterNoDuplicates(s[1..], p);
      var rest := Filter(s[1..], p);
      if p(s[0]) {
        assert s[0] !in s[1..];
        assert s[0] !in rest;
        var f := [s[0]] + rest;
        forall i, j | 0 <= i < j < |f| ensures f[i] != f[j] {
          if i == 0 {
            assert f[j] == rest[j - 1];
          } else {
            assert f[i] == rest[i - 1] && f[j] == rest[j - 1];
          }
        }
      }
    }
  }

  /** Neither enabling nor disabling introduces a duplicate. */
  lemma ToggledNoDuplicates(current: seq<string>, id: string, enabled: bool)
    requires NoDuplicates(current)
    ensures NoDuplicates(Toggled(current, id, enabled))
  {
    if !enabled {
      FilterNoDuplicates(current, sid => sid != id);
    }
  }

  /** The custom servers that remain once every one with `id` is removed. */
  function WithoutServer(custom: seq<ServerConfig>, id: string): (r: seq<ServerConfig>)
    ensures forall i :: 0 <= i < |r| ==> r[i].id != id
  {
    Filter(custom, (s: ServerConfig) => s.id != id)
  }

  /** Removal keeps exactly the servers with another id. */
  lemma WithoutServerKeeps(custom: seq<ServerConfig>, id: string, s: ServerConfig)
    ensures s in WithoutServer(custom, id) <==> s in custom && s.id != id
  {
  }

  /** A configuration with the Brave key filled in as `resolvedApiKey`, for the Brave server and
      a key that is present and not empty; any other configuration is returned as it is. */
  function Resolved(s: ServerConfig, braveKey: Option<string>): (r: ServerConfig)
    ensures r == s || (s.id == BraveSearchId && braveKey.Some? && braveKey.value != "")
    ensures r == s.(resolvedApiKey := r.resolvedApiKey)
  {
    if s.id == BraveSearchId && braveKey.Some? && braveKey.value != "" then s.(resolvedApiKey := braveKey) else s
  }

  /** The enabled servers, in built-in-then-custom order, the Brave one with its key. */
  function EnabledConfigs(all: seq<ServerConfig>, enabledIds: seq<string>, braveKey: Option<string>): (r: seq<ServerConfig>)
    ensures |r| <= |all|
    ensures forall i :: 0 <= i < |r| ==> r[i].id in enabledIds
  {
    Map(Filter(all, (s: ServerConfig) => s.id in enabledIds), s => Resolved(s, braveKey))
  }

  /** Every server returned is enabled, it is a server of `all` up to its key, and every enabled
      server of `all` is returned; only the Brave server gains a key, and only from a present,
      non-empty key. */
  lemma EnabledConfigsShape(all: seq<ServerConfig>, enabledIds: seq<string>, braveKey: Option<string>)
    ensures var r := EnabledConfigs(all, enabledIds, braveKey);
      && (forall i :: 0 <= i < |r| ==> r[i].id in enabledIds)
      && (forall i :: 0 <= i < |r| ==> exists s :: s in all && r[i] == Resolved(s, braveKey))
      && (forall s :: s in all && s.id in enabledIds ==> Resolved(s, braveKey) in r)
      && (forall i :: 0 <= i < |r| && r[i].id != BraveSearchId ==> r[i] in all)
  {
    var p := (s: ServerConfig) => s.id in enabledIds;
    var f := Filter(all, p);
    var r := EnabledConfigs(all, enabledIds, braveKey);
    forall i | 0 <= i < |r| ensures r[i].id in enabledIds && f[i] in all && r[i] == Resolved(f[i], braveKey) {
      assert p(f[i]);
    }
    forall s | s in all && s.id in enabledIds ensures Resolved(s, braveKey) in r {
      var k :| 0 <= k < |all| && all[k] == s;
      assert p(all[k]);
      var j :| 0 <= j < |f| && f[j] == s;
      assert r[j] == Resolved(s, braveKey);
    }
  }

  /** A server as the settings page lists it. */
  datatype ServerWithStatus = ServerWithStatus(config: ServerConfig, enabled: bool, connected: bool,
                                               toolCount: int, error: Option<string>)

  /** The three session-manager queries `getAllServersWithStatus` may be given. */
  datatype StatusSource = StatusSource(isConnected: string -> bool, getToolCount: string -> int,
                                       getConnectionError: string -> Option<string>)

  function WithStatus(config: ServerConfig, enabledIds: seq<string>, source: Option<StatusSource>): ServerWithStatus {
    match source
    case None => ServerWithStatus(config, config.id in enabledIds, false, 0, None)
    case Some(m) =>
      ServerWithStatus(config, config.id in enabledIds, m.isConnected(config.id),
                       m.getToolCount(config.id), m.getConnectionError(config.id))
  }

  /** Every server with its status, in built-in-then-custom order. */
  function AllWithStatus(all: seq<ServerConfig>, enabledIds: seq<string>, source: Option<StatusSource>): (r: seq<ServerWithStatus>)
    ensures |r| == |all|
    ensures forall i :: 0 <= i < |all| ==> r[i].config == all[i] && (r[i].enabled <==> all[i].id in enabledIds)
  {
    Map(all, c => WithStatus(c, enabledIds, source))
  }

  /** One entry per server, in order; `enabled` is membership in the enabled ids; without a
      manager a server is disconnected, has no tools and no error, otherwise the manager
      answers. */
  lemma AllWithStatusShape(all: seq<ServerConfig>, enabledIds: seq<string>, source: Option<StatusSource>)
    ensures var r := AllWithStatus(all, enabledIds, source);
      && |r| == |all|
      && (forall i :: 0 <= i < |all| ==> r[i].config == all[i] && (r[i].enabled <==> all[i].id in enabledIds))
      && (source.None? ==> forall i :: 0 <= i < |all| ==> !r[i].connected && r[i].toolCount == 0 && r[i].error == None)
      && (source.Some? ==> forall i :: 0 <= i < |all| ==>
            && r[i].connected == source.value.isConnected(all[i].id)
            && r[i].toolCount == source.value.getToolCount(all[i].id)
            && r[i].error == source.value.getConnectionError(all[i].id))
  {
  }

  class Store {
    var encryptedApiKey: string
    var encryptedBraveApiKey: string
    var enabledServers: seq<string>
    var customServers: seq<ServerConfig>

    /** The store's defaults: no keys, the built-in default servers enabled, no custom servers. */
    constructor()
      ensures encryptedApiKey == "" && encryptedBraveApiKey == ""
      ensures enabledServers == [DuckDuckGoId, WebFetchId] && customServers == []
    {
      encryptedApiKey := "";
      encryptedBraveApiKey := "";
      DefaultEnabledIdsValue();
      enabledServers := DefaultEnabledIds();
      customServers := [];
    }

    method SaveApiKey(plaintext: string, safe: SafeStorage)
      modifies this
      ensures encryptedApiKey == Sealed(plaintext, safe)
      ensures encryptedBraveApiKey == old(encryptedBraveApiKey)
      ensures enabledServers == old(enabledServers) && customServers == old(customServers)
    {
      if !safe.available {
        encryptedApiKey := plaintext;
        return;
      }
      encryptedApiKey := safe.encrypt(plaintext);
    }

    function LoadApiKey(safe: SafeStorage): (r: Option<string>)
      reads this
      ensures !HasApiKey() ==> r == None
      ensures !safe.available ==> (r.Some? <==> HasApiKey())
    {
      Unsealed(encryptedApiKey, safe)
    }

    predicate HasApiKey()
      reads this
    {
      encryptedApiKey != ""
    }

    method SaveBraveApiKey(plaintext: string, safe: SafeStorage)
      modifies this
      ensures encryptedBraveApiKey == Sealed(plaintext, safe)
      ensures encryptedApiKey == old(encryptedApiKey)
      ensures enabledServers == old(enabledServers) && customServers == old(customServers)
    {
      if !safe.available {
        encryptedBraveApiKey := plaintext;
        return;
      }
      encryptedBraveApiKey := safe.encrypt(plaintext);
    }

    function LoadBraveApiKey(safe: SafeStorage): (r: Option<string>)
      reads this
      ensures encryptedBraveApiKey == "" ==> r == None
      ensures !safe.available ==> (r.Some? <==> encryptedBraveApiKey != "")
    {
      Unsealed(encryptedBraveApiKey, safe)
    }

    /** `getEnabledServerIds`: stale ids are filtered out; when none remains, the defaults are
        written back and returned. */
    method GetEnabledServerIds() returns (ids: seq<string>)
      modifies this
      ensures ids == EnabledIds(old(enabledServers), customServers)
      ensures enabledServers == StoredAfterQuery(old(enabledServers), customServers)
      ensures customServers == old(customServers)
      ensures encryptedApiKey == old(encryptedApiKey) && encryptedBraveApiKey == old(encryptedBraveApiKey)
    {
      var stored := enabledServers;
      var custom := customServers;
      var valid := Filter(stored, id => Known(id, custom));
      assert valid == ValidIds(stored, custom);
      if |valid| == 0 {
        var defaults := DefaultEnabledIds();
        enabledServers := defaults;
        return defaults;
      }
      return valid;
    }

    method SetServerEnabled(id: string, enabled: bool)
      modifies this
      ensures enabledServers == Toggled(old(enabledServers), id, enabled)
      ensures customServers == old(customServers)
      ensures encryptedApiKey == old(encryptedApiKey) && encryptedBraveApiKey == old(encryptedBraveApiKey)
    {
      var current := enabledServers;
      if enabled && id !in current {
        enabledServers := current + [id];
      } else if !enabled {
        enabledServers := Filter(current, sid => sid != id);
      }
    }

    function GetCustomServers(): seq<ServerConfig>
      reads this
    {
      customServers
    }

    /** `addCustomServer`: appended at the end, even when its id is already there. */
    method AddCustomServer(config: ServerConfig)
      modifies this
      ensures customServers == old(customServers) + [config]
      ensures enabledServers == old(enabledServers)
      ensures encryptedApiKey == old(encryptedApiKey) && encryptedBraveApiKey == old(encryptedBraveApiKey)
    {
      var current := GetCustomServers();
      customServers := current + [config];
    }

    /** `removeCustomServer`: every custom server with the id goes, and the id is disabled. */
    method RemoveCustomServer(id: string)
      modifies this
      ensures customServers == WithoutServer(old(customServers), id)
      ensures enabledServers == Toggled(old(enabledServers), id, false)
      ensures encryptedApiKey == old(encryptedApiKey) && encryptedBraveApiKey == old(encryptedBraveApiKey)
    {
      var current := GetCustomServers();
      customServers := Filter(current, (s: ServerConfig) => s.id != id);
      SetServerEnabled(id, false);
    }

    /** `getAllServers`: the built-in servers, then the custom ones. */
    function GetAllServers(): (r: seq<ServerConfig>)
      reads this
      ensures |r| == |BuiltinServers| + |customServers|
      ensures r[..|BuiltinServers|] == BuiltinServers && r[|BuiltinServers|..] == customServers
    {
      BuiltinServers + customServers
    }

    /** `getEnabledServerConfigs`: the servers whose id `getEnabledServerIds` returns (which may
        reset the stored list), the Brave one with the loaded Brave key. */
    method GetEnabledServerConfigs(safe: SafeStorage) returns (configs: seq<ServerConfig>)
      modifies this
      ensures configs == EnabledConfigs(BuiltinServers + customServers, EnabledIds(old(enabledServers), customServers),
                                        Unsealed(encryptedBraveApiKey, safe))
      ensures enabledServers == StoredAfterQuery(old(enabledServers), customServers)
      ensures customServers == old(customServers)
      ensures encryptedApiKey == old(encryptedApiKey) && encryptedBraveApiKey == old(encryptedBraveApiKey)
    {
      var enabledIds := GetEnabledServerIds();
      var braveKey := LoadBraveApiKey(safe);
      var all := GetAllServers();
      configs := Map(Filter(all, (s: ServerConfig) => s.id in enabledIds), s => Resolved(s, braveKey));
    }

    /** `getAllServersWithStatus`: every server, its enablement and what the manager, if given,
        says of it. */
    method GetAllServersWithStatus(source: Option<StatusSource>) returns (r: seq<ServerWithStatus>)
      modifies this
      ensures r == AllWithStatus(BuiltinServers + customServers, EnabledIds(old(enabledServers), customServers), source)
      ensures enabledServers == StoredAfterQuery(old(enabledServers), customServers)
      ensures customServers == old(customServers)
      ensures encryptedApiKey == old(encryptedApiKey) && encryptedBraveApiKey == old(encryptedBraveApiKey)
    {
      var enabledIds := GetEnabledServerIds();
      var all := GetAllServers();
      r := Map(all, c => WithStatus(c, enabledIds, source));
    }
  }
}
