/** The Supabase tables `users`, `creator_profiles` and `tips` as one
    in-memory object, and the lib/database.ts operations on them. The
    store generates row ids (fresh naturals here); every call is given the
    `Link` outcome the server decides, and a failed call changes nothing. */
module Database {
  import opened Common
  import opened Ledger
  import Slug

  /** PostgREST's code for "`.single()` found zero rows or several". */
  const NotFoundCode: string := "PGRST116"

  /** `.single()` over the rows a query selected. */
  function Single<T>(rows: seq<T>, link: Link): (r: Result<T, string>)
    ensures link.Down? ==> r == Err(link.code)
    ensures link.Up? && |rows| == 1 ==> r == Ok(rows[0])
    ensures link.Up? && |rows| != 1 ==> r == Err(NotFoundCode)
  {
    if link.Down? then Err(link.code)
    else if |rows| == 1 then Ok(rows[0])
    else Err(NotFoundCode)
  }

  /** The lookups' error handling: the not-found code becomes `null`, any
      other error is thrown on. */
  function NullIfNotFound<T>(r: Result<T, string>): (o: Result<Option<T>, string>)
    ensures r.Ok? ==> o == Ok(Some(r.value))
    ensures r.Err? && r.error == NotFoundCode ==> o == Ok(None)
    ensures r.Err? && r.error != NotFoundCode ==> o == Err(r.error)
  {
    match r
    case Ok(v) => Ok(Some(v))
    case Err(code) => if code == NotFoundCode then Ok(None) else Err(code)
  }

  /** A profile row with the wallet address of its user embedded
      (`select('*, users(baseWalletAddress)')`); `None` when no user row
      has the profile's `userId`. */
  datatype ProfileWithOwner = ProfileWithOwner(profile: CreatorProfile, owner: Option<string>)

  class Tables {
    var users: seq<User>
    var profiles: seq<CreatorProfile>
    var tips: seq<Tip>
    /** The next id the store hands out. */
    var nextId: nat

    /** Every id is below `nextId` and no two rows of a table share one. */
    ghost predicate Valid()
      reads this
    {
      && (forall i :: 0 <= i < |users| ==> users[i].userId < nextId)
      && (forall i :: 0 <= i < |profiles| ==> profiles[i].creatorId < nextId)
      && (forall i :: 0 <= i < |tips| ==> tips[i].tipId < nextId)
      && (forall i, j :: 0 <= i < j < |users| ==> users[i].userId != users[j].userId)
      && (forall i, j :: 0 <= i < j < |profiles| ==> profiles[i].creatorId != profiles[j].creatorId)
      && (forall i, j :: 0 <= i < j < |tips| ==> tips[i].tipId != tips[j].tipId)
    }

    constructor ()
      ensures Valid()
      ensures users == [] && profiles == [] && tips == [] && nextId == 0
    {
      users, profiles, tips, nextId := [], [], [], 0;
    }

    // ----- inserts: `insert(row).select('*').single()` -----

    /** `createUser`: on success one user row with a fresh id is appended
        and returned; on failure the error is thrown and nothing changes. */
    method CreateUser(baseWalletAddress: string, farcasterId: Option<string>, now: int, link: Link)
      returns (r: Result<User, string>)
      requires Valid()
      modifies this
      ensures Valid()
      ensures profiles == old(profiles) && tips == old(tips)
      ensures link.Down? ==> r == Err(link.code) && users == old(users) && nextId == old(nextId)
      ensures link.Up? ==> && r == Ok(User(old(nextId), baseWalletAddress, farcasterId, now))
                           && users == old(users) + [r.value]
                           && nextId == old(nextId) + 1
    {
      if link.Down? {
        return Err(link.code);
      }
      var user := User(nextId, baseWalletAddress, farcasterId, now);
      users := users + [user];
      nextId := nextId + 1;
      r := Ok(user);
    }

    /** `createCreatorProfile`: the vanity URL is the slug of the display
        name; on success one profile row is appended and returned. */
    method CreateCreatorProfile(userId: Id, displayName: string, bio: Option<string>, now: int, link: Link)
      returns (r: Result<CreatorProfile, string>)
      requires Valid()
      modifies this
      ensures Valid()
      ensures users == old(users) && tips == old(tips)
      ensures link.Down? ==> r == Err(link.code) && profiles == old(profiles) && nextId == old(nextId)
      ensures link.Up? ==>
        && r == Ok(CreatorProfile(old(nextId), userId, displayName, bio, Slug.Slugify(displayName), now))
        && profiles == old(profiles) + [r.value]
        && nextId == old(nextId) + 1
    {
      var vanityUrl := Slug.Slugify(displayName);
      if link.Down? {
        return Err(link.code);
      }
      var profile := CreatorProfile(nextId, userId, displayName, bio, vanityUrl, now);
      profiles := profiles + [profile];
      nextId := nextId + 1;
      r := Ok(profile);
    }

    /** `recordTip`: inserts the row as given, with a fresh `tipId`. There is
        no check for an existing `transactionHash`: whether a repeated hash
        is refused is up to the server, whose refusal is an error like any
        other. */
    method RecordTip(tip: TipInput, link: Link) returns (r: Result<Tip, string>)
      requires Valid()
      modifies this
      ensures Valid()
      ensures users == old(users) && profiles == old(profiles)
      ensures link.Down? ==> r == Err(link.code) && tips == old(tips) && nextId == old(nextId)
      ensures link.Up? ==> && r == Ok(tip.WithId(old(nextId)))
                           && tips == old(tips) + [r.value]
                           && nextId == old(nextId) + 1
    {
      if link.Down? {
        return Err(link.code);
      }
      var row := tip.WithId(nextId);
      tips := tips + [row];
      nextId := nextId + 1;
      r := Ok(row);
    }

    // ----- queries -----

    function UsersWithAddress(address: string): seq<User>
      reads this
    {
      Where(users, (u: User) => u.baseWalletAddress == address)
    }

    function ProfilesWithVanityUrl(vanityUrl: string): seq<CreatorProfile>
      reads this
    {
      Where(profiles, (p: CreatorProfile) => p.vanityUrl == vanityUrl)
    }

    function ProfilesOfUser(userId: Id): seq<CreatorProfile>
      reads this
    {
      Where(profiles, (p: CreatorProfile) => p.userId == userId)
    }

    /** The tips a receiver got, in table order. */
    function ReceivedBy(receiverAddress: string): seq<Tip>
      reads this
    {
      Where(tips, (t: Tip) => t.receiverAddress == receiverAddress)
    }

    /** `getUserByAddress`: the user when exactly one row has the address,
        `null` when none or several do, the error when the call fails with
        another code. */
    function GetUserByAddress(address: string, link: Link): (r: Result<Option<User>, string>)
      reads this
      ensures r.Err? <==> link.Down? && link.code != NotFoundCode
      ensures r.Err? ==> r.error == link.code
      ensures r.Ok? && r.value.Some? <==> link.Up? && |UsersWithAddress(address)| == 1
      ensures r.Ok? && r.value.Some? ==>
        && UsersWithAddress(address) == [r.value.value]
        && r.value.value in users
        && r.value.value.baseWalletAddress == address
    {
      NullIfNotFound(Single(UsersWithAddress(address), link))
    }

    /** The embedded `users(baseWalletAddress)` of a profile. */
    function OwnerOf(userId: Id): (owner: Option<string>)
      reads this
      ensures owner.Some? ==> exists i :: 0 <= i < |users| && users[i].userId == userId
                                           && users[i].baseWalletAddress == owner.value
      ensures owner.None? ==> forall i :: 0 <= i < |users| ==> users[i].userId != userId
    {
      var owners := Where(users, (u: User) => u.userId == userId);
      if owners == [] then
        assert forall i :: 0 <= i < |users| ==> multiset(owners)[users[i]] == 0;
        None
      else
        assert owners[0] in multiset(owners);
        Some(owners[0].baseWalletAddress)
    }

    /** `getCreatorProfileByVanityUrl`: the profile when exactly one row has
        the vanity URL, `null` when none or several do. */
    function GetCreatorProfileByVanityUrl(vanityUrl: string, link: Link)
      : (r: Result<Option<ProfileWithOwner>, string>)
      reads this
      ensures r.Err? <==> link.Down? && link.code != NotFoundCode
      ensures r.Err? ==> r.error == link.code
      ensures r.Ok? && r.value.Some? <==> link.Up? && |ProfilesWithVanityUrl(vanityUrl)| == 1
      ensures r.Ok? && r.value.Some? ==>
        && ProfilesWithVanityUrl(vanityUrl) == [r.value.value.profile]
        && r.value.value.profile in profiles
        && r.value.value.profile.vanityUrl == vanityUrl
        && r.value.value.owner == OwnerOf(r.value.value.profile.userId)
    {
      match NullIfNotFound(Single(ProfilesWithVanityUrl(vanityUrl), link))
      case Err(code) => Err(code)
      case Ok(None) => Ok(None)
      case Ok(Some(p)) => Ok(Some(ProfileWithOwner(p, OwnerOf(p.userId))))
    }

    /** `from('creator_profiles').select('*').eq('userId', id).single()`:
        the profile when the user has exactly one, an error otherwise. */
    function GetProfileOfUser(userId: Id, link: Link): (r: Result<CreatorProfile, string>)
      reads this
      ensures r.Ok? <==> link.Up? && |ProfilesOfUser(userId)| == 1
      ensures r.Ok? ==> r.value in profiles && r.value.userId == userId
                        && ProfilesOfUser(userId) == [r.value]
    {
      Single(ProfilesOfUser(userId), link)
    }

    /** `getCreatorTips`: exactly the receiver's rows, newest first. */
    function GetCreatorTips(receiverAddress: string, link: Link): (r: Result<seq<Tip>, string>)
      reads this
      ensures link.Down? ==> r == Err(link.code)
      ensures link.Up? ==> r.Ok?
      ensures r.Ok? ==> && NewestFirst(r.value)
                        && multiset(r.value) == multiset(ReceivedBy(receiverAddress))
                        && (forall t :: t in r.value <==> t in tips && t.receiverAddress == receiverAddress)
    {
      if link.Down? then Err(link.code)
      else
        var rows := SortNewestFirst(ReceivedBy(receiverAddress));
        assert forall t :: t in rows <==> t in multiset(ReceivedBy(receiverAddress));
        Ok(rows)
    }

    /** `getCreatorTipAnalytics`: the fold over the receiver's rows. */
    function GetCreatorTipAnalytics(receiverAddress: string, link: Link): (r: Result<TipAnalytics, string>)
      reads this
      ensures link.Down? ==> r == Err(link.code)
      ensures link.Up? ==> r == Ok(Summarize(ReceivedBy(receiverAddress)))
    {
      if link.Down? then Err(link.code) else Ok(Summarize(ReceivedBy(receiverAddress)))
    }
  }

  /** The analytics count exactly the receiver's tips. */
  lemma AnalyticsCountReceivedTips(db: Tables, receiverAddress: string)
    ensures var r := db.GetCreatorTipAnalytics(receiverAddress, Up).value;
      && r.totalTips == |db.ReceivedBy(receiverAddress)|
      && r.totalAmount == SumAmounts(db.ReceivedBy(receiverAddress))
      && r.uniqueTippers <= r.totalTips
      && (r.uniqueTippers > 0 <==> exists i :: 0 <= i < |db.tips| && db.tips[i].receiverAddress == receiverAddress)
  {
    var rows := db.ReceivedBy(receiverAddress);
    var r := Summarize(rows);
    assert db.GetCreatorTipAnalytics(receiverAddress, Up).value == r;
    CountsOfSummary(rows);
    assert r.uniqueTippers > 0 <==> |rows| > 0;
    if exists i :: 0 <= i < |db.tips| && db.tips[i].receiverAddress == receiverAddress {
      var i :| 0 <= i < |db.tips| && db.tips[i].receiverAddress == receiverAddress;
      assert multiset(rows)[db.tips[i]] > 0;
    }
    if |rows| > 0 {
      assert rows[0] in db.tips && rows[0].receiverAddress == receiverAddress;
    }
  }
}
