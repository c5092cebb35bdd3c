/** The account rules of the back end: the level formula, the category
    names of the avatar shop, and each endpoint as a guarded update of the
    stored user record. The database is two maps, users by id and progress
    records by user id. */
module Server {
  import opened Common
  import opened Text
  import Progress

  // ------------------------------------------------------------------
  // Levels

  /** `max(1, xp // 100 + 1)`; Python's `//` floors, as Dafny's `/` does
      for a positive divisor. */
  function LevelFromXp(xp: int): (level: int)
    ensures level >= 1
  {
    if xp / 100 + 1 > 1 then xp / 100 + 1 else 1
  }

  /** For non-negative xp the level is the hundreds band the xp falls in. */
  lemma LevelBand(xp: int)
    requires xp >= 0
    ensures LevelFromXp(xp) == xp / 100 + 1
    ensures 100 * (LevelFromXp(xp) - 1) <= xp < 100 * LevelFromXp(xp)
  {
  }

  /** More xp never means a lower level. */
  lemma {:induction false} LevelMonotone(a: int, b: int)
    requires a <= b
    ensures LevelFromXp(a) <= LevelFromXp(b)
  {
    DivMonotone(a, b, 100);
  }

  lemma DivMonotone(a: int, b: int, d: int)
    requires a <= b && d > 0
    ensures a / d <= b / d
  {
    if a / d > b / d {
      assert d * (a / d) + a % d == a;
      assert d * (b / d) + b % d == b;
      assert d * (a / d) >= d * (b / d + 1) by {
        MulMonotone(d, b / d + 1, a / d);
      }
    }
  }

  lemma MulMonotone(d: int, x: int, y: int)
    requires d > 0 && x <= y
    ensures d * x <= d * y
  {
  }

  /** What one award of xp produces. */
  datatype XpGain = XpGain(newXp: int, newLevel: int, levelUp: bool, bonusCoins: int)

  /** The arithmetic of `add_xp`: the new xp and level, whether the level
      rose, and the bonus of ten coins per level reached on a level-up. */
  function GainXp(oldXp: int, xp: int): (g: XpGain)
    ensures g.newXp == oldXp + xp && g.newLevel == LevelFromXp(oldXp + xp)
    ensures g.levelUp <==> g.newLevel > LevelFromXp(oldXp)
    ensures g.bonusCoins == (if g.levelUp then 10 * g.newLevel else 0)
  {
    var newLevel := LevelFromXp(oldXp + xp);
    var up := newLevel > LevelFromXp(oldXp);
    XpGain(oldXp + xp, newLevel, up, if up then newLevel * 10 else 0)
  }

  /** A positive award from non-negative xp raises the level exactly when
      it reaches the next multiple of 100; the bonus is then at least 20
      coins, and an award below 100 raises the level by at most one. */
  lemma GainXpLevelUp(oldXp: int, xp: int)
    requires oldXp >= 0 && xp > 0
    ensures GainXp(oldXp, xp).levelUp <==> oldXp + xp >= 100 * (oldXp / 100 + 1)
    ensures GainXp(oldXp, xp).levelUp ==> GainXp(oldXp, xp).bonusCoins >= 20
    ensures !GainXp(oldXp, xp).levelUp ==> GainXp(oldXp, xp).bonusCoins == 0
    ensures xp < 100 ==> GainXp(oldXp, xp).newLevel <= LevelFromXp(oldXp) + 1
  {
    LevelBand(oldXp);
    LevelBand(oldXp + xp);
    LevelMonotone(oldXp, oldXp + xp);
  }

  // ------------------------------------------------------------------
  // Avatar categories

  const CatEnToEs: map<string, string> :=
    map["hat" := "sombrero", "accessory" := "accesorio", "background" := "fondo", "special" := "especiales"]

  const CatEsToEn: map<string, string> :=
    map["sombrero" := "hat", "accesorio" := "accessory", "fondo" := "background", "especiales" := "special"]

  /** The Spanish table is the exact inverse of the English one, and no
      name belongs to both languages. */
  lemma CategoryTablesInverse()
    ensures forall en | en in CatEnToEs :: CatEnToEs[en] in CatEsToEn && CatEsToEn[CatEnToEs[en]] == en
    ensures forall es | es in CatEsToEn :: CatEsToEn[es] in CatEnToEs && CatEnToEs[CatEsToEn[es]] == es
    ensures CatEnToEs.Keys !! CatEsToEn.Keys
    ensures CatEnToEs.Values == CatEsToEn.Keys
  {
    assert CatEsToEn.Keys == {"sombrero", "accesorio", "fondo", "especiales"};
  }

  /** `(cat or "").strip().lower()` */
  function CleanCategory(cat: string): string {
    Lower(Trim(Py, cat))
  }

  /** Maps a category name in either language to its English key; any other
      name comes back cleaned but unchanged. */
  function NormalizeCatToEn(cat: string): (r: string)
    ensures r in CatEnToEs <==> CleanCategory(cat) in CatEnToEs || CleanCategory(cat) in CatEsToEn
    ensures CleanCategory(cat) in CatEnToEs ==> r == CleanCategory(cat)
    ensures CleanCategory(cat) in CatEsToEn ==> CatEnToEs[r] == CleanCategory(cat)
    ensures r !in CatEnToEs ==> r == CleanCategory(cat)
  {
    CategoryTablesInverse();
    var c := CleanCategory(cat);
    if c in CatEnToEs then c
    else if c in CatEsToEn then CatEsToEn[c]
    else c
  }

  /** A name already trimmed and in lower case is its own cleaned form. */
  lemma CleanOfClean(s: string)
    requires NoUpper(s) && Trimmed(Py, s)
    ensures CleanCategory(s) == s
  {
    TrimOfTrimmed(Py, s);
    LowerOfLowered(s);
  }

  /** Normalising a normalised name changes nothing. */
  lemma NormalizeCatIdempotent(cat: string)
    ensures NormalizeCatToEn(NormalizeCatToEn(cat)) == NormalizeCatToEn(cat)
  {
    var r := NormalizeCatToEn(cat);
    if r in CatEnToEs {
      EnglishKeyClean(r);
    } else {
      var t := Trim(Py, cat);
      LowerIdempotent(t);
      CleanOfClean(Lower(t));
    }
  }

  lemma EnglishKeyClean(r: string)
    requires r in CatEnToEs
    ensures NormalizeCatToEn(r) == r
  {
    assert NoUpper(r) && Trimmed(Py, r) by {
      assert r == "hat" || r == "accessory" || r == "background" || r == "special";
    }
    CleanOfClean(r);
  }

  // ------------------------------------------------------------------
  // Records

  /** A stored user document (the avatar configuration and the creation
      time are not modelled). `level` is written once at registration. */
  datatype User = User(username: string, age: int, coins: int, level: int, xp: int,
                       badges: seq<string>, purchased: seq<string>,
                       equipped: map<string, string>, selectedLevel: string)

  /** The document `register` creates. */
  function NewUser(username: string, age: int): User {
    User(username, age, 0, 1, 0, [], [], map[], "primaria")
  }

  /** The user as the endpoints return it: the level is recomputed from the
      xp, never read from the stored field. */
  datatype Profile = Profile(id: string, username: string, age: int, coins: int, level: int, xp: int,
                             badges: seq<string>, purchased: seq<string>,
                             equipped: map<string, string>, selectedLevel: string)

  function ProfileOf(id: string, u: User): Profile {
    Profile(id, u.username, u.age, u.coins, LevelFromXp(u.xp), u.xp, u.badges, u.purchased, u.equipped, u.selectedLevel)
  }

  /** The profile of a new user shows level 1 and zero coins and xp. */
  lemma NewProfile(id: string, username: string, age: int)
    ensures var p := ProfileOf(id, NewUser(username, age));
            p.level == 1 && p.coins == 0 && p.xp == 0 && p.badges == [] && p.purchased == []
            && p.equipped == map[] && p.selectedLevel == "primaria"
  {
  }

  /** MongoDB's `ObjectId(str)` accepts exactly 24 hexadecimal digits. */
  predicate IsObjectId(s: string) {
    |s| == 24 && forall i | 0 <= i < |s| :: s[i] in "0123456789abcdefABCDEF"
  }

  const Levels: seq<string> := ["inicial", "primaria", "secundaria"]

  datatype ApiError =
    | InvalidId | InvalidLevel | UserExists | UserNotFound | MissingUserId
    | ZeroCoins | MissingBadge | MissingItem | NegativePrice
    | InsufficientCoins | AlreadyPurchased | InvalidCategory | NotPurchased | NonPositiveXp
  {
    /** The HTTP status the endpoint answers with. */
    function Status(): int {
      if this == UserNotFound then 404 else 400
    }
  }

  /** The answer of `add_xp`. */
  datatype XpAnswer = XpAnswer(newXp: int, newLevel: int, levelUp: bool, bonusCoins: int, totalCoins: int)

  predicate UsernameTaken(users: map<string, User>, username: string) {
    exists id | id in users :: users[id].username == username
  }

  /** `if data.item_id:` -- an absent or empty id means "unequip". */
  predicate Equips(item: Option<string>) {
    item.Some? && item.value != ""
  }

  /** The slots after `equip_item`: equipping writes the item under both the
      English and the Spanish key of the category, unequipping removes both. */
  function Equipped(slots: map<string, string>, en: string, item: Option<string>): (r: map<string, string>)
    requires en in CatEnToEs
    ensures Equips(item) ==> en in r && r[en] == item.value && CatEnToEs[en] in r && r[CatEnToEs[en]] == item.value
    ensures !Equips(item) ==> en !in r && CatEnToEs[en] !in r
    ensures forall k | k in slots && k != en && k != CatEnToEs[en] :: k in r && r[k] == slots[k]
    ensures forall k | k in r && k != en && k != CatEnToEs[en] :: k in slots
  {
    var es := CatEnToEs[en];
    if Equips(item) then slots[en := item.value][es := item.value] else slots - {en, es}
  }

  /** Ids are ObjectIds, usernames are unique, badge and purchase lists
      hold no duplicates and xp is never negative. */
  ghost predicate ValidUsers(users: map<string, User>) {
    && (forall id | id in users :: IsObjectId(id))
    && (forall id | id in users :: NoDup(users[id].badges) && NoDup(users[id].purchased))
    && (forall id | id in users :: users[id].xp >= 0)
    && (forall a, b | a in users && b in users && a != b :: users[a].username != users[b].username)
  }

  /** Replacing a record by one with the same username, duplicate-free
      lists and non-negative xp keeps the map valid. */
  lemma ValidAfterUpdate(users: map<string, User>, id: string, u: User)
    requires ValidUsers(users) && id in users
    requires u.username == users[id].username && NoDup(u.badges) && NoDup(u.purchased) && u.xp >= 0
    ensures ValidUsers(users[id := u])
  {
  }

  /** The checks of `purchase_item`, in the order they run: the id, the
      item, a negative price, then the missing user, too few coins and an
      item already owned. */
  function PurchaseRefusal(users: map<string, User>, id: string, item: string, price: int): (r: Option<ApiError>)
    ensures r.None? <==> && IsObjectId(id) && item != "" && price >= 0 && id in users
                         && users[id].coins >= price && item !in users[id].purchased
    ensures r == Some(InsufficientCoins) ==> id in users && users[id].coins < price
    ensures r == Some(AlreadyPurchased) ==> id in users && users[id].coins >= price && item in users[id].purchased
  {
    if !IsObjectId(id) then Some(InvalidId)
    else if item == "" then Some(MissingItem)
    else if price < 0 then Some(NegativePrice)
    else if id !in users then Some(UserNotFound)
    else if users[id].coins < price then Some(InsufficientCoins)
    else if item in users[id].purchased then Some(AlreadyPurchased)
    else None
  }

  /** The checks of `equip_item`, in the order they run: the id, a category
      that names no slot, the missing user, then an item not owned. */
  function EquipRefusal(users: map<string, User>, id: string, category: string, item: Option<string>): (r: Option<ApiError>)
    ensures r.None? <==> && IsObjectId(id) && NormalizeCatToEn(category) in CatEnToEs && id in users
                         && (Equips(item) ==> item.value in users[id].purchased)
    ensures r == Some(NotPurchased) ==> Equips(item) && id in users && item.value !in users[id].purchased
  {
    if !IsObjectId(id) then Some(InvalidId)
    else if NormalizeCatToEn(category) !in CatEnToEs then Some(InvalidCategory)
    else if id !in users then Some(UserNotFound)
    else if Equips(item) && item.value !in users[id].purchased then Some(NotPurchased)
    else None
  }

  class Api {
    var users: map<string, User>
    var progress: map<string, Progress.Snapshot>

    ghost predicate Valid()
      reads this
    {
      ValidUsers(users)
    }

    constructor()
      ensures Valid() && users == map[] && progress == map[]
    {
      users := map[];
      progress := map[];
    }

    /** `register`: refuses a taken username; otherwise stores a new user
        under the id the database generated, with an empty progress record. */
    method Register(freshId: string, username: string, age: int) returns (r: Result<Profile, ApiError>)
      requires Valid()
      requires IsObjectId(freshId) && freshId !in users && freshId !in progress
      modifies this
      ensures Valid()
      ensures UsernameTaken(old(users), username) ==> r == Err(UserExists) && users == old(users) && progress == old(progress)
      ensures !UsernameTaken(old(users), username) ==>
                && users == old(users)[freshId := NewUser(username, age)]
                && progress == old(progress)[freshId := Progress.Empty]
                && r == Ok(ProfileOf(freshId, NewUser(username, age)))
    {
      if UsernameTaken(users, username) {
        return Err(UserExists);
      }
      users := users[freshId := NewUser(username, age)];
      progress := progress[freshId := Progress.Empty];
      r := Ok(ProfileOf(freshId, users[freshId]));
    }

    /** `update_level`: only the three school levels are accepted; the
        level is checked before the id. */
    method UpdateLevel(id: string, level: string) returns (r: Result<Profile, ApiError>)
      requires Valid()
      modifies this
      ensures Valid() && progress == old(progress)
      ensures level !in Levels ==> r == Err(InvalidLevel)
      ensures level in Levels && !IsObjectId(id) ==> r == Err(InvalidId)
      ensures level in Levels && IsObjectId(id) && id !in old(users) ==> r == Err(UserNotFound)
      ensures level in Levels && IsObjectId(id) && id in old(users) ==> r.Ok?
      ensures r.Err? ==> users == old(users)
      ensures r.Ok? ==> id in old(users) && level in Levels
                        && users == old(users)[id := old(users)[id].(selectedLevel := level)]
                        && r.value == ProfileOf(id, users[id])
    {
      if level !in Levels {
        return Err(InvalidLevel);
      }
      if !IsObjectId(id) {
        return Err(InvalidId);
      }
      if id !in users {
        return Err(UserNotFound);
      }
      ValidAfterUpdate(users, id, users[id].(selectedLevel := level));
      users := users[id := users[id].(selectedLevel := level)];
      r := Ok(ProfileOf(id, users[id]));
    }

    /** `add_coins`: a zero amount is refused; any other amount, negative
        ones included, is added and the new balance returned. */
    method AddCoins(id: string, coins: int) returns (r: Result<int, ApiError>)
      requires Valid()
      modifies this
      ensures Valid() && progress == old(progress)
      ensures !IsObjectId(id) ==> r == Err(InvalidId)
      ensures IsObjectId(id) && coins == 0 ==> r == Err(ZeroCoins)
      ensures IsObjectId(id) && coins != 0 && id !in old(users) ==> r == Err(UserNotFound)
      ensures IsObjectId(id) && coins != 0 && id in old(users) ==> r.Ok?
      ensures r.Err? ==> users == old(users)
      ensures r.Ok? ==> id in old(users) && coins != 0
                        && users == old(users)[id := old(users)[id].(coins := old(users)[id].coins + coins)]
                        && r.value == users[id].coins
    {
      if !IsObjectId(id) {
        return Err(InvalidId);
      }
      if coins == 0 {
        return Err(ZeroCoins);
      }
      if id !in users {
        return Err(UserNotFound);
      }
      ValidAfterUpdate(users, id, users[id].(coins := users[id].coins + coins));
      users := users[id := users[id].(coins := users[id].coins + coins)];
      r := Ok(users[id].coins);
    }

    /** `unlock_badge`: a set insert; the answer says whether the badge is
        new. */
    method UnlockBadge(id: string, badge: string) returns (r: Result<bool, ApiError>)
      requires Valid()
      modifies this
      ensures Valid() && progress == old(progress)
      ensures !IsObjectId(id) ==> r == Err(InvalidId)
      ensures IsObjectId(id) && badge == "" ==> r == Err(MissingBadge)
      ensures IsObjectId(id) && badge != "" && id !in old(users) ==> r == Err(UserNotFound)
      ensures IsObjectId(id) && badge != "" && id in old(users) ==> r.Ok?
      ensures r.Err? ==> users == old(users)
      ensures r.Ok? ==> id in old(users) && badge != ""
                        && users == old(users)[id := old(users)[id].(badges := SetInsert(old(users)[id].badges, badge))]
                        && (r.value <==> badge !in old(users)[id].badges)
    {
      if !IsObjectId(id) {
        return Err(InvalidId);
      }
      if badge == "" {
        return Err(MissingBadge);
      }
      if id !in users {
        return Err(UserNotFound);
      }
      var before := users[id].badges;
      ValidAfterUpdate(users, id, users[id].(badges := SetInsert(before, badge)));
      users := users[id := users[id].(badges := SetInsert(before, badge))];
      r := Ok(badge !in before);
    }

    /** `purchase_item`: succeeds only when the user can pay and does not
        own the item yet; what it refuses, and in which order, is
        `PurchaseRefusal`. */
    method PurchaseItem(id: string, item: string, price: int) returns (r: Result<int, ApiError>)
      requires Valid()
      modifies this
      ensures Valid() && progress == old(progress)
      ensures r.Err? <==> PurchaseRefusal(old(users), id, item, price).Some?
      ensures r.Err? ==> r.error == PurchaseRefusal(old(users), id, item, price).value && users == old(users)
      ensures r.Ok? ==> id in old(users)
                        && users == old(users)[id := old(users)[id].(coins := old(users)[id].coins - price,
                                                                      purchased := old(users)[id].purchased + [item])]
                        && r.value == users[id].coins && r.value >= 0
    {
      var refusal := PurchaseRefusal(users, id, item, price);
      if refusal.Some? {
        return Err(refusal.value);
      }
      var u := users[id];
      ValidAfterUpdate(users, id, u.(coins := u.coins - price, purchased := u.purchased + [item]));
      users := users[id := u.(coins := u.coins - price, purchased := u.purchased + [item])];
      r := Ok(users[id].coins);
    }

    /** `equip_item`: the category must name one of the four slots in
        either language, and an item must be owned; what it refuses, and in
        which order, is `EquipRefusal`. */
    method EquipItem(id: string, category: string, item: Option<string>) returns (r: Result<map<string, string>, ApiError>)
      requires Valid()
      modifies this
      ensures Valid() && progress == old(progress)
      ensures r.Err? <==> EquipRefusal(old(users), id, category, item).Some?
      ensures r.Err? ==> r.error == EquipRefusal(old(users), id, category, item).value && users == old(users)
      ensures r.Ok? ==> && id in old(users) && NormalizeCatToEn(category) in CatEnToEs
                        && r.value == Equipped(old(users)[id].equipped, NormalizeCatToEn(category), item)
                        && users == old(users)[id := old(users)[id].(equipped := r.value)]
    {
      var refusal := EquipRefusal(users, id, category, item);
      if refusal.Some? {
        return Err(refusal.value);
      }
      var en := NormalizeCatToEn(category);
      var slots := Equipped(users[id].equipped, en, item);
      ValidAfterUpdate(users, id, users[id].(equipped := slots));
      users := users[id := users[id].(equipped := slots)];
      r := Ok(slots);
    }

    /** `add_xp`: a positive award is added, and crossing into a new level
        also credits the level-up bonus. The stored `level` field is not
        touched. */
    method AddXp(id: string, xp: int) returns (r: Result<XpAnswer, ApiError>)
      requires Valid()
      modifies this
      ensures Valid() && progress == old(progress)
      ensures !IsObjectId(id) ==> r == Err(InvalidId)
      ensures IsObjectId(id) && xp <= 0 ==> r == Err(NonPositiveXp)
      ensures IsObjectId(id) && xp > 0 && id !in old(users) ==> r == Err(UserNotFound)
      ensures IsObjectId(id) && xp > 0 && id in old(users) ==> r.Ok?
      ensures r.Err? ==> users == old(users)
      ensures r.Ok? ==> id in old(users) && xp > 0
                        && var u := old(users)[id];
                           var g := GainXp(u.xp, xp);
                           && users == old(users)[id := u.(xp := g.newXp, coins := u.coins + g.bonusCoins)]
                           && r.value == XpAnswer(g.newXp, g.newLevel, g.levelUp, g.bonusCoins, u.coins + g.bonusCoins)
    {
      if !IsObjectId(id) {
        return Err(InvalidId);
      }
      if xp <= 0 {
        return Err(NonPositiveXp);
      }
      if id !in users {
        return Err(UserNotFound);
      }
      var u := users[id];
      var g := GainXp(u.xp, xp);
      var after := u.(xp := g.newXp);
      if g.levelUp {
        after := after.(coins := after.coins + g.bonusCoins);
      }
      ValidAfterUpdate(users, id, after);
      users := users[id := after];
      r := Ok(XpAnswer(g.newXp, g.newLevel, g.levelUp, g.bonusCoins, after.coins));
    }

    /** `get_progress`: creates an empty record for an id that has none. */
    method GetProgress(id: string) returns (r: Result<Progress.Snapshot, ApiError>)
      modifies this
      ensures users == old(users)
      ensures id == "" ==> r == Err(MissingUserId) && progress == old(progress)
      ensures id != "" && id in old(progress) ==> r == Ok(old(progress)[id]) && progress == old(progress)
      ensures id != "" && id !in old(progress) ==> r == Ok(Progress.Empty) && progress == old(progress)[id := Progress.Empty]
    {
      if id == "" {
        return Err(MissingUserId);
      }
      if id !in progress {
        progress := progress[id := Progress.Empty];
      }
      r := Ok(progress[id]);
    }

    /** `update_progress`: an upsert that stores the record as sent; the
        answer says whether it had to be created. */
    method UpdateProgress(id: string, s: Progress.Snapshot) returns (created: bool)
      modifies this
      ensures users == old(users)
      ensures progress == old(progress)[id := s]
      ensures created <==> id !in old(progress)
    {
      created := id !in progress;
      progress := progress[id := s];
    }
  }
}
