/** The roster tables of the `players` app: categories, players and the
    guardian-player links, with the player's derived name and age. */
module Players {
  import opened Wrappers
  import opened Dates

  /** `Category`. The admin views also read and write an `is_registration_open`
      flag, kept here as a field. */
  datatype Category = Category(name: string, isRegistrationOpen: bool)

  /** `Player`, with `category` the primary key of its category. `is_featured`
      is the flag the featured-players page sets. */
  datatype Player = Player(
    firstName: string,
    lastName: string,
    birthdate: Date,
    category: nat,
    isActive: bool,
    isFeatured: bool)

  datatype Relation = Padre | Madre | Tutor | Abuelo | Otro

  /** `GuardianPlayer`: `guardian` is a user id, `player` a player's primary key. */
  datatype GuardianLink = GuardianLink(guardian: nat, player: nat, relation: Relation)

  /** A player row as the model's defaults fill it in: active, not featured. */
  function NewPlayer(firstName: string, lastName: string, birthdate: Date, category: nat): (p: Player)
    ensures p.isActive && !p.isFeatured
    ensures p.firstName == firstName && p.lastName == lastName
    ensures p.birthdate == birthdate && p.category == category
  {
    Player(firstName, lastName, birthdate, category, true, false)
  }

  /** `get_full_name`: the first name, one space, the last name. */
  function FullName(p: Player): (s: string)
    ensures |s| == |p.firstName| + 1 + |p.lastName|
    ensures s[..|p.firstName|] == p.firstName
    ensures s[|p.firstName|] == ' '
    ensures s[|p.firstName| + 1..] == p.lastName
  {
    p.firstName + " " + p.lastName
  }

  /** When first names have no space in them, the full name determines both
      parts: the first space is where the first name ends. */
  lemma FullNameDetermines(p: Player, q: Player)
    requires ' ' !in p.firstName && ' ' !in q.firstName
    requires FullName(p) == FullName(q)
    ensures p.firstName == q.firstName && p.lastName == q.lastName
  {
    var s := FullName(p);
    assert p.firstName == s[..|p.firstName|];
    assert q.firstName == s[..|q.firstName|];
  }

  /** `Player.age`: the year difference, less one while this year's
      (month, day) of birth is still ahead of today's, compared as tuples. */
  function Age(birth: Date, today: Date): (age: int)
    ensures age == today.year - birth.year || age == today.year - birth.year - 1
  {
    today.year - birth.year - (if PairLess(today.month, today.day, birth.month, birth.day) then 1 else 0)
  }

  /** The day of the `k`-th birthday, as a point of the (year, month, day)
      order (for 29 February in a common year it falls between 28 February
      and 1 March). */
  function Anniversary(birth: Date, k: int): Date {
    Date(birth.year + k, birth.month, birth.day)
  }

  /** The age is the number of birthdays that have come: it reaches `k`
      exactly on the `k`-th birthday. */
  lemma AgeCountsBirthdays(birth: Date, today: Date, k: int)
    ensures Age(birth, today) >= k <==> NotAfter(Anniversary(birth, k), today)
  {
  }

  lemma AgeOnBirthday(birth: Date, k: int)
    ensures Age(birth, Anniversary(birth, k)) == k
  {
  }

  /** Between the `k`-th birthday and the next one the age stays `k`. */
  lemma AgeBetweenBirthdays(birth: Date, today: Date, k: int)
    requires NotAfter(Anniversary(birth, k), today) && Before(today, Anniversary(birth, k + 1))
    ensures Age(birth, today) == k
  {
    AgeCountsBirthdays(birth, today, k);
    AgeCountsBirthdays(birth, today, k + 1);
  }

  lemma AgeNonNegative(birth: Date, today: Date)
    requires NotAfter(birth, today)
    ensures Age(birth, today) >= 0
  {
    AgeCountsBirthdays(birth, today, 0);
  }

  lemma AgeMonotone(birth: Date, t1: Date, t2: Date)
    requires NotAfter(t1, t2)
    ensures Age(birth, t1) <= Age(birth, t2)
  {
  }

  /** `unique_together = ['guardian', 'player']`. */
  ghost predicate UniqueLinks(links: seq<GuardianLink>) {
    forall i, j :: 0 <= i < j < |links| ==>
      links[i].guardian != links[j].guardian || links[i].player != links[j].player
  }

  predicate HasLink(links: seq<GuardianLink>, guardian: nat, player: nat) {
    exists k :: 0 <= k < |links| && links[k].guardian == guardian && links[k].player == player
  }

  /** `GuardianPlayer.objects.filter(player=player).first()`: the link with
      the lowest primary key for this player, if there is one. */
  function FirstLinkOf(links: seq<GuardianLink>, player: nat): (r: Option<nat>)
    ensures r.None? <==> forall k :: 0 <= k < |links| ==> links[k].player != player
    ensures r.Some? ==> r.value < |links| && links[r.value].player == player
    ensures r.Some? ==> forall k :: 0 <= k < r.value ==> links[k].player != player
    decreases |links|
  {
    if links == [] then None
    else if links[0].player == player then Some(0)
    else match FirstLinkOf(links[1..], player)
      case None => None
      case Some(k) => Some(k + 1)
  }

  /** The number of featured players. */
  function FeaturedCount(players: seq<Player>): (n: nat)
    ensures n <= |players|
    decreases |players|
  {
    if players == [] then 0
    else FeaturedCount(players[..|players| - 1]) + (if players[|players| - 1].isFeatured then 1 else 0)
  }

  /** How many of the keys `0 .. n-1` appear in `ids`. */
  function CountListed(n: nat, ids: seq<nat>): nat {
    if n == 0 then 0 else CountListed(n - 1, ids) + (if n - 1 in ids then 1 else 0)
  }

  lemma {:induction false} CountListedCons(n: nat, a: nat, rest: seq<nat>)
    ensures CountListed(n, [a] + rest) <= CountListed(n, rest) + (if a < n then 1 else 0)
  {
    if n > 0 {
      CountListedCons(n - 1, a, rest);
    }
  }

  lemma {:induction false} CountListedBound(n: nat, ids: seq<nat>)
    ensures CountListed(n, ids) <= |ids|
    decreases |ids|
  {
    if ids == [] {
      CountListedEmpty(n);
    } else {
      assert ids == [ids[0]] + ids[1..];
      CountListedCons(n, ids[0], ids[1..]);
      CountListedBound(n, ids[1..]);
    }
  }

  lemma {:induction false} CountListedEmpty(n: nat)
    ensures CountListed(n, []) == 0
  {
    if n > 0 {
      CountListedEmpty(n - 1);
    }
  }

  lemma {:induction false} FeaturedCountIsListed(players: seq<Player>, ids: seq<nat>)
    requires forall i :: 0 <= i < |players| ==> players[i].isFeatured == (i in ids)
    ensures FeaturedCount(players) == CountListed(|players|, ids)
    decreases |players|
  {
    if players != [] {
      FeaturedCountIsListed(players[..|players| - 1], ids);
    }
  }

  /** When exactly the players whose keys are listed are featured, there are
      at most as many featured players as listed ids. */
  lemma FeaturedAtMostListed(players: seq<Player>, ids: seq<nat>)
    requires forall i :: 0 <= i < |players| ==> players[i].isFeatured == (i in ids)
    ensures FeaturedCount(players) <= |ids|
  {
    FeaturedCountIsListed(players, ids);
    CountListedBound(|players|, ids);
  }

  /** The roster tables. */
  class Roster {
    var categories: seq<Category>
    var players: seq<Player>
    var links: seq<GuardianLink>

    /** Foreign keys point at existing rows and links are unique per pair. */
    ghost predicate Valid()
      reads this
    {
      && (forall i :: 0 <= i < |players| ==> players[i].category < |categories|)
      && (forall k :: 0 <= k < |links| ==> links[k].player < |players|)
      && UniqueLinks(links)
    }

    constructor ()
      ensures Valid()
      ensures categories == [] && players == [] && links == []
    {
      categories, players, links := [], [], [];
    }

    /** `GuardianPlayer.objects.create`: refused (the IntegrityError of
        `unique_together`) when the pair is already linked. */
    method CreateLink(guardian: nat, player: nat, relation: Relation) returns (ok: bool)
      requires Valid() && player < |players|
      modifies this
      ensures Valid()
      ensures ok <==> !HasLink(old(links), guardian, player)
      ensures links == if ok then old(links) + [GuardianLink(guardian, player, relation)] else old(links)
      ensures players == old(players) && categories == old(categories)
    {
      ok := !HasLink(links, guardian, player);
      if ok {
        links := links + [GuardianLink(guardian, player, relation)];
      }
    }

    /** `Player.objects.all().update(is_featured=flag)`. */
    method UpdateAllFeatured(flag: bool)
      requires Valid()
      modifies this
      ensures Valid()
      ensures |players| == |old(players)|
      ensures forall i :: 0 <= i < |players| ==> players[i] == old(players[i]).(isFeatured := flag)
      ensures links == old(links) && categories == old(categories)
    {
      players := seq(|players|, i requires 0 <= i < |players| reads this => players[i].(isFeatured := flag));
    }

    /** `Player.objects.filter(id__in=ids).update(is_featured=flag)`. */
    method UpdateFeaturedIn(ids: seq<nat>, flag: bool)
      requires Valid()
      modifies this
      ensures Valid()
      ensures |players| == |old(players)|
      ensures forall i :: 0 <= i < |players| ==>
        players[i] == if i in ids then old(players[i]).(isFeatured := flag) else old(players[i])
      ensures links == old(links) && categories == old(categories)
    {
      players := seq(|players|, i requires 0 <= i < |players| reads this =>
        if i in ids then players[i].(isFeatured := flag) else players[i]);
    }

    /** `category.save()` for an existing row. */
    method SaveCategory(pk: nat, c: Category)
      requires Valid() && pk < |categories|
      modifies this
      ensures Valid()
      ensures categories == old(categories)[pk := c]
      ensures players == old(players) && links == old(links)
    {
      categories := categories[pk := c];
    }
  }
}
