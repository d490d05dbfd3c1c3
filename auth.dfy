/** The identity/progression store (contexts/AuthContext.tsx): one session user,
    profile editing, reset to a fixed default, and the single-pass level-up rule. */
module Auth {
  import opened Wrappers
  import opened Types

  /** The open-access identity every session starts with and `logout` restores. */
  const DefaultUser := User(
    "admin-guest", "연구원 (Admin)", "admin@samhwa.com", Admin, "R&BD Center", 10, 5000, 6000)

  function CalculateMaxXp(level: int): int {
    level * 100
  }

  /** The user after one `gainXp(amount)`: the threshold is tested once, so at most
      one level is gained per call, however large `amount` is. */
  function XpAfter(u: User, amount: int): User {
    if u.xp + amount < u.maxXp then
      u.(xp := u.xp + amount)
    else
      u.(xp := u.xp + amount - u.maxXp, level := u.level + 1, maxXp := CalculateMaxXp(u.level + 1))
  }

  /** `gainXp` on the nullable user slot: nothing happens without a user. */
  function Awarded(user: Option<User>, amount: int): Option<User> {
    match user
    case None => None
    case Some(u) => Some(XpAfter(u, amount))
  }

  /** The same rule applied to a sequence of awards, one call per element. */
  function XpAfterAll(u: User, amounts: seq<int>): User
    decreases |amounts|
  {
    if |amounts| == 0 then u else XpAfterAll(XpAfter(u, amounts[0]), amounts[1..])
  }

  /** Below the threshold only `xp` moves. */
  lemma GainXpBelowThreshold(u: User, amount: int)
    requires u.xp + amount < u.maxXp
    ensures XpAfter(u, amount) == u.(xp := u.xp + amount)
    ensures XpAfter(u, amount).level == u.level && XpAfter(u, amount).maxXp == u.maxXp
  {
  }

  /** `gainXp(0)` changes nothing while xp is below maxXp. */
  lemma GainZeroIsNoOp(u: User)
    requires u.xp < u.maxXp
    ensures XpAfter(u, 0) == u
  {
  }

  /** Reaching the threshold subtracts the old maxXp, adds one level and
      recomputes maxXp from the new level. */
  lemma GainXpLevelUp(u: User, amount: int)
    requires u.xp + amount >= u.maxXp
    ensures XpAfter(u, amount).xp == u.xp + amount - u.maxXp
    ensures XpAfter(u, amount).level == u.level + 1
    ensures XpAfter(u, amount).maxXp == (u.level + 1) * 100
  {
  }

  /** One call moves the level by zero or one, never more. */
  lemma AtMostOneLevelPerCall(u: User, amount: int)
    ensures u.level <= XpAfter(u, amount).level <= u.level + 1
    ensures XpAfter(u, amount).level == u.level + 1 <==> u.xp + amount >= u.maxXp
  {
  }

  /** The default user awarded 5000 XP ends above its new maxXp: no cascade. */
  lemma NoCascadeExample()
    ensures XpAfter(DefaultUser, 5000).level == 11
    ensures XpAfter(DefaultUser, 5000).xp == 4000
    ensures XpAfter(DefaultUser, 5000).maxXp == 1100
    ensures XpAfter(DefaultUser, 5000).xp >= XpAfter(DefaultUser, 5000).maxXp
  {
  }

  /** One XP short of the threshold, one more XP levels up to exactly zero XP. */
  lemma LastPointLevelsUp(u: User)
    requires u.xp == u.maxXp - 1
    ensures XpAfter(u, 1) == u.(level := u.level + 1, xp := 0, maxXp := (u.level + 1) * 100)
  {
  }

  /** XP stays non-negative, and ends below maxXp exactly when the sum is below
      the old threshold or below the old threshold plus the next level's maxXp. */
  lemma XpBounds(u: User, amount: int)
    requires 0 <= u.xp && 0 <= amount
    ensures 0 <= XpAfter(u, amount).xp
    ensures XpAfter(u, amount).xp < XpAfter(u, amount).maxXp
            <==> (u.xp + amount < u.maxXp || u.xp + amount < u.maxXp + (u.level + 1) * 100)
  {
  }

  /** The profile fields and the role are never touched by the XP rule. */
  lemma GainXpKeepsIdentity(u: User, amount: int)
    ensures XpAfter(u, amount).id == u.id && XpAfter(u, amount).name == u.name
    ensures XpAfter(u, amount).email == u.email && XpAfter(u, amount).department == u.department
    ensures XpAfter(u, amount).role == u.role
  {
  }

  /** `0 <= xp < maxXp` survives any sequence of awards of at most 200 XP each
      (the portal awards 10 or 50) from a user at level 1 or above. */
  lemma {:induction false} SmallAwardsKeepXpBelowMax(u: User, amounts: seq<int>)
    requires 1 <= u.level && 0 <= u.xp < u.maxXp
    requires forall k :: 0 <= k < |amounts| ==> 0 <= amounts[k] <= 200
    ensures var r := XpAfterAll(u, amounts);
      u.level <= r.level && 0 <= r.xp < r.maxXp
    decreases |amounts|
  {
    if |amounts| > 0 {
      var v := XpAfter(u, amounts[0]);
      assert 1 <= v.level && 0 <= v.xp < v.maxXp;
      SmallAwardsKeepXpBelowMax(v, amounts[1..]);
    }
  }

  class AuthStore {
    var user: Option<User>

    constructor ()
      ensures user == Some(DefaultUser)
    {
      user := Some(DefaultUser);
    }

    /** Overwrites the three profile fields and forces the admin role; id, level
        and the XP counters are kept. The source dereferences the user with `!`. */
    method Login(name: string, email: string, department: string)
      requires user.Some?
      modifies this
      ensures user.Some?
      ensures user.value.name == name && user.value.email == email
      ensures user.value.department == department && user.value.role == Admin
      ensures user.value.id == old(user.value.id) && user.value.level == old(user.value.level)
      ensures user.value.xp == old(user.value.xp) && user.value.maxXp == old(user.value.maxXp)
    {
      var u := user.value;
      user := Some(u.(name := name, email := email, department := department, role := Admin));
    }

    /** Resets to the default identity, whatever the state before. */
    method Logout()
      modifies this
      ensures user == Some(DefaultUser)
    {
      user := Some(DefaultUser);
    }

    /** Every session is approved already, so approval does nothing. */
    method ApproveUser(userId: string)
      ensures user == old(user)
    {
    }

    method GainXp(amount: int)
      modifies this
      ensures user == Awarded(old(user), amount)
    {
      if user.None? {
        return;
      }
      var u := user.value;
      var newXp := u.xp + amount;
      var newLevel := u.level;
      var newMaxXp := u.maxXp;
      if newXp >= newMaxXp {
        newXp := newXp - newMaxXp;
        newLevel := newLevel + 1;
        newMaxXp := CalculateMaxXp(newLevel);
      }
      user := Some(u.(xp := newXp, level := newLevel, maxXp := newMaxXp));
    }
  }
}
