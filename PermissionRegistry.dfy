/** The permission registry: a per-context cache of user permission levels,
    the string-keyed configuration store that persists them ("userPerms.permissions",
    one per context), the default level, the level constants, and the one-time
    switch that lets the bot's creator hold the maximum level. */
module Permissions {
  import opened Wrappers
  import opened Decimal
  import opened Commands

  /** A user who is not a member of the current guild. */
  const PermissionLevelNonMember: Byte := 0
  /** A user blacklisted from every command. */
  const PermissionLevelBlacklisted: Byte := 1
  /** The level of ordinary users, and the initial default. */
  const PermissionLevelStandardUser: Byte := 2
  /** Users trusted with slightly more than ordinary users. */
  const PermissionLevelTrustedUser: Byte := 3
  /** Operators (moderators). */
  const PermissionLevelOperator: Byte := 63
  /** Administrators. */
  const PermissionLevelAdministrator: Byte := 127
  /** The server owner. */
  const PermissionLevelServerOwner: Byte := 254
  /** The backend console. */
  const PermissionLevelBackendConsole: Byte := 255

  datatype MalformedConfigDataException = MalformedConfigDataException(message: string)
  datatype InvalidOperationException = InvalidOperationException(message: string)

  const AllowXanAfterCreationMessage: string :=
    "Cannot set this value after bot initialization (it does not ensure that the permission value hasn't been set already). Set this value before calling XanBotCoreSystem.InitializeBotAsync()"

  /** The in-memory cache: per context, user id to level. */
  type LevelCache = map<BotContext, map<ULong, Byte>>

  /** The backing store: per context, the key/value pairs of its permissions
      configuration file. Keys are decimal user ids, values decimal levels. */
  type BackingStore = map<BotContext, map<string, string>>

  /** The configuration of one context; a context without a file reads as empty. */
  function ConfigOf(store: BackingStore, context: BotContext): map<string, string> {
    if context in store then store[context] else map[]
  }

  function MalformedMessage(userId: ULong, permLvl: string): string {
    "The data stored for the permission level of user [" + NatToString(userId)
      + "] is malformed. Reason: Could not cast " + permLvl + " into a byte."
  }

  /** What `GetPermissionLevelOfUser` returns for a backing store: the stored
      text for the user, or the default level's text when there is none,
      parsed as a byte; text that does not parse is reported, never replaced
      by the default. */
  function ReadLevel(store: BackingStore, context: BotContext, userId: ULong, defaultLevel: Byte)
    : (r: Result<Byte, MalformedConfigDataException>)
    ensures IdKey(userId) !in ConfigOf(store, context) ==> r == Success(defaultLevel)
    ensures r.Failure? <==>
      IdKey(userId) in ConfigOf(store, context) && ParseByte(ConfigOf(store, context)[IdKey(userId)]).None?
    ensures r.Success? && IdKey(userId) in ConfigOf(store, context) ==>
      var text := ConfigOf(store, context)[IdKey(userId)];
      AllDigits(text) && DigitsValue(text) == r.value
  {
    var cfg := ConfigOf(store, context);
    var key := IdKey(userId);
    var permLvl := if key in cfg then cfg[key] else NatToString(defaultLevel);
    ParseByteOfString(defaultLevel);
    match ParseByte(permLvl)
    case Some(perms) => Success(perms)
    case None => Failure(MalformedConfigDataException(MalformedMessage(userId, permLvl)))
  }

  /** Out-of-range and non-numeric texts are not bytes. */
  lemma ParseByteRejects()
    ensures ParseByte("256").None? && ParseByte("abc").None? && ParseByte("").None?
  {
    assert DigitsValue("256") == 256 by {
      assert "256"[..2] == "25" && "25"[..1] == "2" && "2"[..0] == "";
    }
    assert !IsDigit("abc"[0]);
  }

  /** The cache after setting one (context, user) entry: the context's map is
      created if missing, that entry holds the level, and everything else is
      as before. */
  function WithLevel(cache: LevelCache, context: BotContext, userId: ULong, level: Byte): (r: LevelCache)
    ensures context in r && userId in r[context] && r[context][userId] == level
    ensures r.Keys == cache.Keys + {context}
    ensures forall c | c in cache && c != context :: r[c] == cache[c]
    ensures r[context].Keys == (if context in cache then cache[context].Keys else {}) + {userId}
    ensures forall u | context in cache && u in cache[context] && u != userId :: r[context][u] == cache[context][u]
  {
    var levels := if context in cache then cache[context] else map[];
    cache[context := levels[userId := level]]
  }

  /** `userId.ToString()`, the key of a user's entry in the store. */
  function IdKey(userId: ULong): string {
    NatToString(userId)
  }

  /** The user id a store key names; -1 for a key that is not decimal. */
  function KeyId(key: string): int {
    if AllDigits(key) then DigitsValue(key) else -1
  }

  /** Every id's key names that id, so different ids have different keys. */
  lemma IdKeysInjective()
    ensures forall u: ULong {:trigger IdKey(u)} :: KeyId(IdKey(u)) == u
  {
    forall u: ULong
      ensures KeyId(IdKey(u)) == u
    {
      NatToStringValue(u);
    }
  }

  /** The configuration entries written for the ids in `ids` of one context's levels. */
  function Written(levels: map<ULong, Byte>, ids: set<ULong>): (w: map<string, string>)
    ensures forall u | u in ids && u in levels :: IdKey(u) in w && w[IdKey(u)] == NatToString(levels[u])
  {
    IdKeysInjective();
    map u | u in ids && u in levels :: IdKey(u) := NatToString(levels[u])
  }

  /** Writing one more id adds exactly its entry. */
  lemma WrittenStep(levels: map<ULong, Byte>, ids: set<ULong>, u: ULong)
    requires u in levels
    ensures Written(levels, ids + {u}) == Written(levels, ids)[IdKey(u) := NatToString(levels[u])]
  {
    IdKeysInjective();
  }

  /** Per context, the configuration entries to write into its file. */
  type Writes = map<BotContext, map<string, string>>

  /** What saving writes for each cached context: every cached id of it. */
  function PendingWrites(cache: LevelCache): Writes {
    map c | c in cache :: Written(cache[c], cache[c].Keys)
  }

  /** The store after writing a context's pending entries into its file; a
      context with nothing pending is left alone. */
  function SaveWith(store: BackingStore, ws: Writes, context: BotContext): BackingStore {
    if context !in ws then store else store[context := ConfigOf(store, context) + ws[context]]
  }

  /** The store after `SaveContextPermissionsToFile(context)`. */
  function SaveContext(store: BackingStore, cache: LevelCache, context: BotContext): (saved: BackingStore)
    ensures saved.Keys == store.Keys + (if context in cache then {context} else {})
    ensures forall c | c in store && c != context :: saved[c] == store[c]
  {
    SaveWith(store, PendingWrites(cache), context)
  }

  /** The store after saving each listed context in turn. */
  function SaveAllWith(store: BackingStore, ws: Writes, contexts: seq<BotContext>): BackingStore
    decreases |contexts|
  {
    if contexts == [] then store
    else SaveWith(SaveAllWith(store, ws, contexts[..|contexts| - 1]), ws, contexts[|contexts| - 1])
  }

  /** The store after `SaveAllUserPermissionsToFile` over `contexts`. */
  function SaveAll(store: BackingStore, cache: LevelCache, contexts: seq<BotContext>): (saved: BackingStore)
    ensures saved.Keys == store.Keys + (set c | c in contexts && c in cache)
    ensures forall c | c in store && (c !in contexts || c !in cache) :: saved[c] == store[c]
  {
    SaveAllWithFlushed(store, PendingWrites(cache), contexts);
    SaveAllWith(store, PendingWrites(cache), contexts)
  }

  /** Saving a context with no cache map changes nothing; otherwise every
      cached id of it is written as its level's decimal text, including ids at
      the default level, every other key of its file is kept, and no other
      context's file changes. */
  lemma SaveContextEffect(store: BackingStore, cache: LevelCache, context: BotContext)
    ensures context !in cache ==> SaveContext(store, cache, context) == store
    ensures context in cache ==>
      var saved := SaveContext(store, cache, context);
      && saved.Keys == store.Keys + {context}
      && (forall c | c in store && c != context :: saved[c] == store[c])
      && (forall u | u in cache[context] ::
            IdKey(u) in saved[context] && saved[context][IdKey(u)] == NatToString(cache[context][u]))
      && (forall k | k in ConfigOf(store, context) && k !in Written(cache[context], cache[context].Keys) ::
            saved[context][k] == ConfigOf(store, context)[k])
      && saved[context].Keys == ConfigOf(store, context).Keys + Written(cache[context], cache[context].Keys).Keys
  {
  }

  /** Writing one entry after a batch is writing it as part of the batch. */
  lemma UnionUpdate(cfg: map<string, string>, w: map<string, string>, k: string, v: string)
    ensures (cfg + w)[k := v] == cfg + w[k := v]
  {
  }

  /** Writing the same entries twice is writing them once. */
  lemma UnionIdempotent(cfg: map<string, string>, w: map<string, string>)
    ensures (cfg + w) + w == cfg + w
  {
  }

  /** Saving the same context twice with no update in between gives the
      same store as saving it once. */
  lemma SaveContextIdempotent(store: BackingStore, cache: LevelCache, context: BotContext)
    ensures SaveContext(SaveContext(store, cache, context), cache, context) == SaveContext(store, cache, context)
  {
    var ws := PendingWrites(cache);
    if context in ws {
      UnionIdempotent(ConfigOf(store, context), ws[context]);
    }
  }

  /** Setting a level and saving its context stores text that reads back as
      that level: level to decimal text to level is the identity. */
  lemma SavedLevelRoundTrip(store: BackingStore, cache: LevelCache, member: XanBotMember, defaultLevel: Byte)
    ensures
      var cache' := WithLevel(cache, member.context, member.id, member.permissionLevel);
      ReadLevel(SaveContext(store, cache', member.context), member.context, member.id, defaultLevel)
        == Success(member.permissionLevel)
  {
    var cache' := WithLevel(cache, member.context, member.id, member.permissionLevel);
    SaveContextEffect(store, cache', member.context);
    ParseByteOfString(member.permissionLevel);
  }

  /** The store after saving every context of `contexts`, in closed form. */
  function FlushedWith(store: BackingStore, ws: Writes, contexts: set<BotContext>): BackingStore {
    map c | c in store.Keys + (contexts * ws.Keys) ::
      if c in contexts && c in ws then ConfigOf(store, c) + ws[c] else store[c]
  }

  /** Saving the listed contexts in turn depends only on which contexts are listed. */
  lemma {:induction false} SaveAllWithFlushed(store: BackingStore, ws: Writes, contexts: seq<BotContext>)
    ensures SaveAllWith(store, ws, contexts) == FlushedWith(store, ws, set c | c in contexts)
    decreases |contexts|
  {
    if contexts == [] {
      assert FlushedWith(store, ws, {}) == store;
    } else {
      var init := contexts[..|contexts| - 1];
      var last := contexts[|contexts| - 1];
      var s := set c | c in init;
      assert (set c | c in contexts) == s + {last};
      SaveAllWithFlushed(store, ws, init);
      FlushedWithStep(store, ws, s, last);
    }
  }

  /** Saving one more context extends the closed form by that context. */
  lemma FlushedWithStep(store: BackingStore, ws: Writes, contexts: set<BotContext>, context: BotContext)
    ensures SaveWith(FlushedWith(store, ws, contexts), ws, context) == FlushedWith(store, ws, contexts + {context})
  {
    var before := FlushedWith(store, ws, contexts);
    var after := SaveWith(before, ws, context);
    var target := FlushedWith(store, ws, contexts + {context});
    if context !in ws {
      assert (contexts + {context}) * ws.Keys == contexts * ws.Keys;
      assert after.Keys == target.Keys;
      forall c | c in after
        ensures after[c] == target[c]
      {
      }
    } else {
      UnionIdempotent(ConfigOf(store, context), ws[context]);
      assert after.Keys == target.Keys;
      forall c | c in after
        ensures after[c] == target[c]
      {
      }
    }
  }

  /** Flushing the same contexts again writes nothing new. */
  lemma FlushedWithIdempotent(store: BackingStore, ws: Writes, contexts: set<BotContext>)
    ensures FlushedWith(FlushedWith(store, ws, contexts), ws, contexts) == FlushedWith(store, ws, contexts)
  {
    var once := FlushedWith(store, ws, contexts);
    forall c | c in contexts && c in ws
      ensures ConfigOf(once, c) + ws[c] == once[c]
    {
      UnionIdempotent(ConfigOf(store, c), ws[c]);
    }
  }

  /** Saving all contexts twice with no update in between gives the same
      store as saving them once, whatever the order or repetitions of the list. */
  lemma SaveAllIdempotent(store: BackingStore, cache: LevelCache, contexts: seq<BotContext>)
    ensures SaveAll(SaveAll(store, cache, contexts), cache, contexts) == SaveAll(store, cache, contexts)
  {
    var ws := PendingWrites(cache);
    SaveAllWithFlushed(store, ws, contexts);
    SaveAllWithFlushed(SaveAllWith(store, ws, contexts), ws, contexts);
    FlushedWithIdempotent(store, ws, set c | c in contexts);
  }

  /** The registry, whose static state becomes the fields of one object. */
  class PermissionRegistry {
    /** `PermissionsInContext`: the in-memory cache. */
    var permissionsInContext: LevelCache
    /** The per-context configuration files. */
    var store: BackingStore
    /** `XanBotCoreSystem.Created`: whether the bot has been initialised; set by the host. */
    var coreCreated: bool
    /** `AllowXanInternal`, the value behind `AllowXanMaxPermissionLevel`. */
    var allowXanInternal: bool
    /** `DefaultPermissionLevel`, settable by the host. */
    var defaultPermissionLevel: Byte

    /** The state at start-up, over the configuration files already on disk. */
    constructor (persisted: BackingStore)
      ensures permissionsInContext == map[] && store == persisted
      ensures !coreCreated && allowXanInternal
      ensures defaultPermissionLevel == PermissionLevelStandardUser
    {
      permissionsInContext := map[];
      store := persisted;
      coreCreated := false;
      allowXanInternal := true;
      defaultPermissionLevel := PermissionLevelStandardUser;
    }

    /** The getter of `AllowXanMaxPermissionLevel`. */
    function AllowXanMaxPermissionLevel(): (r: bool)
      reads this
      ensures r == allowXanInternal
    {
      allowXanInternal
    }

    /** The setter of `AllowXanMaxPermissionLevel`. After initialisation it
        throws and changes nothing; before, it turns the switch off whatever
        value is assigned. */
    method SetAllowXanMaxPermissionLevel(value: bool) returns (r: Outcome<InvalidOperationException>)
      modifies this`allowXanInternal
      ensures old(coreCreated) ==> r == Fail(InvalidOperationException(AllowXanAfterCreationMessage)) && allowXanInternal == old(allowXanInternal)
      ensures !old(coreCreated) ==> r == Pass && !allowXanInternal
    {
      if coreCreated {
        return Fail(InvalidOperationException(AllowXanAfterCreationMessage));
      }
      allowXanInternal := false;
      return Pass;
    }

    /** `GetPermissionLevelOfUser`: reads the backing store (never the cache). */
    function GetPermissionLevelOfUser(userId: ULong, context: BotContext): (r: Result<Byte, MalformedConfigDataException>)
      reads this
      ensures IdKey(userId) !in ConfigOf(store, context) ==> r == Success(defaultPermissionLevel)
      ensures r.Failure? ==> IdKey(userId) in ConfigOf(store, context)
      ensures r.Success? && IdKey(userId) in ConfigOf(store, context) ==>
        var text := ConfigOf(store, context)[IdKey(userId)];
        AllDigits(text) && DigitsValue(text) == r.value
    {
      ReadLevel(store, context, userId, defaultPermissionLevel)
    }

    /** `UpdatePermissionLevelOfMember`: sets the member's cache entry and,
        when asked, saves the member's whole context at once, after which the
        store reads back the level just set. Without saving, the store is
        untouched, so reads still see the previously persisted value. */
    method UpdatePermissionLevelOfMember(member: XanBotMember, saveToFileNow: bool)
      modifies this`permissionsInContext, this`store
      ensures permissionsInContext == WithLevel(old(permissionsInContext), member.context, member.id, member.permissionLevel)
      ensures saveToFileNow ==> store == SaveContext(old(store), permissionsInContext, member.context)
      ensures saveToFileNow ==> GetPermissionLevelOfUser(member.id, member.context) == Success(member.permissionLevel)
      ensures !saveToFileNow ==> store == old(store)
    {
      var levels := if member.context in permissionsInContext then permissionsInContext[member.context] else map[];
      permissionsInContext := permissionsInContext[member.context := levels[member.id := member.permissionLevel]];
      if saveToFileNow {
        SaveContextPermissionsToFile(member.context);
        SavedLevelRoundTrip(old(store), old(permissionsInContext), member, defaultPermissionLevel);
      }
    }

    /** `SaveAllUserPermissionsToFile`, given `BotContextRegistry.AllContexts`:
        saves each listed context in turn. */
    method SaveAllUserPermissionsToFile(allContexts: seq<BotContext>)
      modifies this`store
      ensures store == SaveAll(old(store), permissionsInContext, allContexts)
    {
      for i := 0 to |allContexts|
        invariant store == SaveAll(old(store), permissionsInContext, allContexts[..i])
      {
        assert allContexts[..i + 1][..i] == allContexts[..i];
        SaveContextPermissionsToFile(allContexts[i]);
      }
      assert allContexts[..|allContexts|] == allContexts;
    }

    /** `SaveContextPermissionsToFile`: writes every cached id of the context
        into its configuration, then saves the file. */
    method SaveContextPermissionsToFile(context: BotContext)
      modifies this`store
      ensures store == SaveContext(old(store), permissionsInContext, context)
    {
      if context !in permissionsInContext {
        return;
      }
      var levels := permissionsInContext[context];
      var cfg := ConfigOf(store, context);
      var pending := levels.Keys;
      while pending != {}
        invariant pending <= levels.Keys
        invariant store == old(store)
        invariant cfg == ConfigOf(old(store), context) + Written(levels, levels.Keys - pending)
        decreases pending
      {
        var id :| id in pending;
        var done := levels.Keys - pending;
        WrittenStep(levels, done, id);
        UnionUpdate(ConfigOf(old(store), context), Written(levels, done), IdKey(id), NatToString(levels[id]));
        assert levels.Keys - (pending - {id}) == done + {id};
        cfg := cfg[IdKey(id) := NatToString(levels[id])];
        pending := pending - {id};
      }
      assert levels.Keys - pending == levels.Keys;
      store := store[context := cfg];
    }
  }
}
