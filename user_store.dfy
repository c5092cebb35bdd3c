/** The client's profile store: one mutable `user` slot, replaced as a whole
    by every action. */
module UserStore {
  import opened Common

  /** The store's `level` holds a number after `updateXP` and a string after
      `updateLevel`. */
  datatype LevelField = Numeric(n: int) | Named(name: string)

  /** The fields of the stored profile the app reads. The badge and
      purchase lists may be absent. */
  datatype User = User(id: string, username: string, coins: int, xp: int, level: LevelField,
                       badges: Option<seq<string>>, purchased: Option<seq<string>>,
                       equipped: map<string, string>, selectedLevel: string)

  /** `list ?? []` */
  function Listed(l: Option<seq<string>>): seq<string> {
    if l.Some? then l.value else []
  }

  /** `addBadge` on a present user: the badge ends up listed exactly where a
      set insert puts it, and no other field changes. */
  function WithBadge(u: User, badge: string): (r: User)
    ensures Listed(r.badges) == SetInsert(Listed(u.badges), badge)
    ensures r.(badges := u.badges) == u
    ensures badge in Listed(u.badges) ==> r == u
  {
    var prev := Listed(u.badges);
    if badge in prev then u else u.(badges := Some(prev + [badge]))
  }

  /** `addPurchasedItem` on a present user, by the same rule. */
  function WithPurchase(u: User, item: string): (r: User)
    ensures Listed(r.purchased) == SetInsert(Listed(u.purchased), item)
    ensures r.(purchased := u.purchased) == u
    ensures item in Listed(u.purchased) ==> r == u
  {
    var prev := Listed(u.purchased);
    if item in prev then u else u.(purchased := Some(prev + [item]))
  }

  /** Adding a badge or an item twice is adding it once, and a list without
      duplicates keeps none. */
  lemma AddTwiceIsOnce(u: User, badge: string, item: string)
    ensures WithBadge(WithBadge(u, badge), badge) == WithBadge(u, badge)
    ensures WithPurchase(WithPurchase(u, item), item) == WithPurchase(u, item)
    ensures NoDup(Listed(u.badges)) ==> NoDup(Listed(WithBadge(u, badge).badges))
    ensures NoDup(Listed(u.purchased)) ==> NoDup(Listed(WithPurchase(u, item).purchased))
  {
  }

  class Store {
    var user: Option<User>

    constructor()
      ensures user == None
    {
      user := None;
    }

    /** `setUser`: replaces the record wholesale. */
    method SetUser(u: Option<User>)
      modifies this
      ensures user == u
    {
      user := u;
    }

    /** `updateCoins`: only the coins change; no user stays no user. */
    method UpdateCoins(coins: int)
      modifies this
      ensures old(user).None? ==> user == None
      ensures old(user).Some? ==> user == Some(old(user).value.(coins := coins))
    {
      if user.Some? {
        user := Some(user.value.(coins := coins));
      }
    }

    /** `updateXP`: only the xp and the (numeric) level change. */
    method UpdateXp(xp: int, level: int)
      modifies this
      ensures old(user).None? ==> user == None
      ensures old(user).Some? ==> user == Some(old(user).value.(xp := xp, level := Numeric(level)))
    {
      if user.Some? {
        user := Some(user.value.(xp := xp, level := Numeric(level)));
      }
    }

    /** `updateLevel`: only the level changes, to a name. */
    method UpdateLevel(level: string)
      modifies this
      ensures old(user).None? ==> user == None
      ensures old(user).Some? ==> user == Some(old(user).value.(level := Named(level)))
    {
      if user.Some? {
        user := Some(user.value.(level := Named(level)));
      }
    }

    method AddBadge(badge: string)
      modifies this
      ensures old(user).None? ==> user == None
      ensures old(user).Some? ==> user == Some(WithBadge(old(user).value, badge))
    {
      if user.Some? {
        user := Some(WithBadge(user.value, badge));
      }
    }

    method AddPurchasedItem(item: string)
      modifies this
      ensures old(user).None? ==> user == None
      ensures old(user).Some? ==> user == Some(WithPurchase(old(user).value, item))
    {
      if user.Some? {
        user := Some(WithPurchase(user.value, item));
      }
    }

    /** `updateEquippedItems`: the slots are replaced as given. */
    method UpdateEquippedItems(equipped: map<string, string>)
      modifies this
      ensures old(user).None? ==> user == None
      ensures old(user).Some? ==> user == Some(old(user).value.(equipped := equipped))
    {
      if user.Some? {
        user := Some(user.value.(equipped := equipped));
      }
    }

    method Logout()
      modifies this
      ensures user == None
    {
      user := None;
    }
  }

  /** Two `addBadge` calls with the same badge leave it listed once. */
  method AddBadgeTwice(u: User, badge: string) returns (badges: seq<string>)
    requires NoDup(Listed(u.badges))
    ensures badges == SetInsert(Listed(u.badges), badge)
    ensures NoDup(badges) && badge in badges
  {
    var store := new Store();
    store.SetUser(Some(u));
    store.AddBadge(badge);
    store.AddBadge(badge);
    badges := Listed(store.user.value.badges);
  }
}
