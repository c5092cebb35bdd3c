/** The educational level the app shows: read from the profile, written to
    the store, to local storage and to the server. */
module LevelState {
  import opened Common
  import Text
  import Server
  import UserStore

  datatype AppLevel = Inicial | Primaria | Secundaria

  /** The key the level is stored under on the device. */
  const StorageKey := "fk:selected_level"

  function Name(l: AppLevel): (r: string)
    ensures r in Server.Levels
    ensures Text.NoUpper(r)
  {
    match l
    case Inicial => "inicial"
    case Primaria => "primaria"
    case Secundaria => "secundaria"
  }

  /** `normalizeLevel`: `v` is the value when it is a string, `None` for
      `null` and `undefined`. Any casing of "primaria" or "secundaria" is
      that level and everything else is "inicial". */
  function NormalizeLevel(v: Option<string>): (r: AppLevel)
    ensures r == Primaria <==> v.Some? && Text.Lower(v.value) == "primaria"
    ensures r == Secundaria <==> v.Some? && Text.Lower(v.value) == "secundaria"
    ensures r == Inicial <==> v.None? || Text.Lower(v.value) !in {"primaria", "secundaria"}
  {
    var s := if v.Some? then Text.Lower(v.value) else "";
    if s == "primaria" then Primaria
    else if s == "secundaria" then Secundaria
    else Inicial
  }

  /** Each level's own name normalises to it, so normalising is
      idempotent, and null means "inicial". */
  lemma NormalizeLevelIdempotent(v: Option<string>)
    ensures NormalizeLevel(Some(Name(NormalizeLevel(v)))) == NormalizeLevel(v)
    ensures NormalizeLevel(None) == Inicial
    ensures forall l :: NormalizeLevel(Some(Name(l))) == l
  {
    forall l: AppLevel
      ensures NormalizeLevel(Some(Name(l))) == l
    {
      Text.LowerOfLowered(Name(l));
    }
  }

  /** AsyncStorage, as a map from keys to stored strings. */
  class Storage {
    var items: map<string, string>

    constructor()
      ensures items == map[]
    {
      items := map[];
    }

    method SetItem(key: string, value: string)
      modifies this
      ensures items == old(items)[key := value]
    {
      items := items[key := value];
    }
  }

  /** `setLevel(next)`: the normalised level, never the raw argument, goes
      into the present user's profile, into storage under its key, and to
      the server when the user has an id; the server's refusal is
      swallowed. */
  method SetLevel(store: UserStore.Store, storage: Storage, api: Server.Api, next: Option<string>)
    requires api.Valid()
    modifies store, storage, api
    ensures api.Valid() && api.progress == old(api.progress)
    ensures var level := Name(NormalizeLevel(next));
            && storage.items == old(storage.items)[StorageKey := level]
            && (old(store.user).None? ==> store.user.None? && api.users == old(api.users))
            && (old(store.user).Some? ==>
                  var id := old(store.user).value.id;
                  && store.user == Some(old(store.user).value.(selectedLevel := level))
                  && (Server.IsObjectId(id) && id in old(api.users) ==>
                        api.users == old(api.users)[id := old(api.users)[id].(selectedLevel := level)])
                  && (!(Server.IsObjectId(id) && id in old(api.users)) ==> api.users == old(api.users)))
  {
    var normalized := Name(NormalizeLevel(next));
    var user := store.user;
    if user.Some? {
      store.SetUser(Some(user.value.(selectedLevel := normalized)));
    }
    storage.SetItem(StorageKey, normalized);
    if user.Some? && user.value.id != "" {
      var ignored := api.UpdateLevel(user.value.id, normalized);
    }
  }

  /** `hydrateLevelIfMissing`: a stored, non-empty level is normalised into
      the present user's profile; nothing else changes. */
  method HydrateLevel(store: UserStore.Store, storage: Storage)
    modifies store
    ensures StorageKey !in storage.items || storage.items[StorageKey] == "" || old(store.user).None? ==>
              store.user == old(store.user)
    ensures StorageKey in storage.items && storage.items[StorageKey] != "" && old(store.user).Some? ==>
              store.user == Some(old(store.user).value.(selectedLevel := Name(NormalizeLevel(Some(storage.items[StorageKey])))))
  {
    if StorageKey !in storage.items || storage.items[StorageKey] == "" {
      return;
    }
    var level := Name(NormalizeLevel(Some(storage.items[StorageKey])));
    var user := store.user;
    if user.Some? {
      store.SetUser(Some(user.value.(selectedLevel := level)));
    }
  }
}
