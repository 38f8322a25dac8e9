/** The `POST` and `GET` handlers of app/api/profile/route.ts. Each handler
    makes up to three store calls in turn; `Links` gives the outcome of each
    one, in the order the handler makes them. */
module ProfileRoute {
  import opened Common
  import opened Ledger
  import Slug
  import opened Database

  const FieldsRequired: string := "Wallet address and display name are required"
  const FailedToCreate: string := "Failed to create profile"
  const ParameterRequired: string := "Either vanityUrl or address parameter is required"
  const NotFound: string := "Profile not found"
  const FailedToFetch: string := "Failed to fetch profile"

  /** The outcomes of the handler's store calls: the lookup of the user (or,
      in `GET`, of the profile by vanity URL), the insert of a new user, and
      the insert (in `GET`, the select) of the profile. */
  datatype Links = Links(lookup: Link, create: Link, profile: Link)

  datatype ProfileBody = ProfileBody(
    baseWalletAddress: Option<string>,
    displayName: Option<string>,
    bio: Option<string>,
    farcasterId: Option<string>)

  predicate HasRequiredFields(b: ProfileBody) {
    Truthy(b.baseWalletAddress) && Truthy(b.displayName)
  }

  /** What `GET` answers with: a profile found by vanity URL carries its
      owner's wallet address; one found through the user does not. */
  datatype ProfileView = Joined(joined: ProfileWithOwner) | Plain(profile: CreatorProfile)

  /** `POST /api/profile`: finds the user with the wallet address or creates
      one, then creates a profile for that user. The steps are not one
      transaction: when the profile insert fails after a user was created,
      the new user row stays. */
  method Post(db: Tables, body: Option<ProfileBody>, now: int, links: Links)
    returns (reply: Reply<CreatorProfile>)
    requires db.Valid()
    modifies db
    ensures db.Valid()
    ensures db.tips == old(db.tips)
    ensures body.None? ==> reply == Fail(500, FailedToCreate)
    ensures body.Some? && !HasRequiredFields(body.value) ==> reply == Fail(400, FieldsRequired)
    ensures body.None? || !HasRequiredFields(body.value) ==>
      db.users == old(db.users) && db.profiles == old(db.profiles) && db.nextId == old(db.nextId)
    ensures body.Some? && HasRequiredFields(body.value) ==>
      Registered(old(db.users), old(db.profiles), old(db.nextId), old(db.GetUserByAddress(body.value.baseWalletAddress.value, links.lookup)),
                 body.value.baseWalletAddress.value, body.value.displayName.value, body.value.bio, body.value.farcasterId,
                 now, links, db.users, db.profiles, db.nextId, reply)
    // a created profile belongs to a user row with the submitted address
    ensures reply.Json? ==>
      && reply.body in db.profiles
      && exists i :: 0 <= i < |db.users| && db.users[i].userId == reply.body.userId
                     && db.users[i].baseWalletAddress == body.value.baseWalletAddress.value
  {
    if body.None? {
      return Fail(500, FailedToCreate);
    }
    var b := body.value;
    if !HasRequiredFields(b) {
      return Fail(400, FieldsRequired);
    }
    reply := Register(db, b.baseWalletAddress.value, b.displayName.value, b.bio, b.farcasterId, now, links);
  }

  /** The outcome of the store calls of `POST`, given the tables before
      them (`users`, `profiles`, `nextId`), what the user lookup found, the
      tables after them and the reply. */
  ghost predicate Registered(users: seq<User>, profiles: seq<CreatorProfile>, nextId: nat,
                             found: Result<Option<User>, string>,
                             address: string, displayName: string, bio: Option<string>, farcasterId: Option<string>,
                             now: int, links: Links,
                             users': seq<User>, profiles': seq<CreatorProfile>, nextId': nat,
                             reply: Reply<CreatorProfile>)
  {
    // the lookup failed with an error other than "not found": nothing is written
    && (found.Err? ==>
          reply == Fail(500, FailedToCreate) && users' == users && profiles' == profiles && nextId' == nextId)
    // the user exists: no user is created
    && (found.Ok? && found.value.Some? ==>
          var profile := CreatorProfile(nextId, found.value.value.userId, displayName, bio, Slug.Slugify(displayName), now);
          && users' == users
          && (links.profile.Down? ==> reply == Fail(500, FailedToCreate) && profiles' == profiles && nextId' == nextId)
          && (links.profile.Up? ==> reply == Json(profile) && profiles' == profiles + [profile] && nextId' == nextId + 1))
    // no user has the address (or several do): one is created first, and
    // stays when the profile insert fails
    && (found == Ok(None) ==>
          var user := User(nextId, address, farcasterId, now);
          var profile := CreatorProfile(nextId + 1, user.userId, displayName, bio, Slug.Slugify(displayName), now);
          && (links.create.Down? ==>
                reply == Fail(500, FailedToCreate) && users' == users && profiles' == profiles && nextId' == nextId)
          && (links.create.Up? ==> users' == users + [user])
          && (links.create.Up? && links.profile.Down? ==>
                reply == Fail(500, FailedToCreate) && profiles' == profiles && nextId' == nextId + 1)
          && (links.create.Up? && links.profile.Up? ==>
                reply == Json(profile) && profiles' == profiles + [profile] && nextId' == nextId + 2))
  }

  /** The store calls of `POST` for a body with both required fields. */
  method Register(db: Tables, address: string, displayName: string, bio: Option<string>, farcasterId: Option<string>,
                  now: int, links: Links)
    returns (reply: Reply<CreatorProfile>)
    requires db.Valid()
    modifies db
    ensures db.Valid()
    ensures db.tips == old(db.tips)
    ensures Registered(old(db.users), old(db.profiles), old(db.nextId), old(db.GetUserByAddress(address, links.lookup)),
                       address, displayName, bio, farcasterId, now, links, db.users, db.profiles, db.nextId, reply)
    ensures reply.Json? ==>
      && reply.body in db.profiles
      && exists i :: 0 <= i < |db.users| && db.users[i].userId == reply.body.userId
                     && db.users[i].baseWalletAddress == address
  {
    var user := FindOrCreateUser(db, address, farcasterId, now, links);
    if user.Err? {
      return Fail(500, FailedToCreate);
    }
    ghost var owner :| 0 <= owner < |db.users| && db.users[owner] == user.value;
    var profile := db.CreateCreatorProfile(user.value.userId, displayName, bio, now, links.profile);
    if profile.Err? {
      return Fail(500, FailedToCreate);
    }
    assert db.users[owner].userId == profile.value.userId;
    reply := Json(profile.value);
  }

  /** The first half of `POST`: the user with the address, or a new one
      when the lookup finds none. */
  method FindOrCreateUser(db: Tables, address: string, farcasterId: Option<string>, now: int, links: Links)
    returns (r: Result<User, string>)
    requires db.Valid()
    modifies db
    ensures db.Valid()
    ensures db.profiles == old(db.profiles) && db.tips == old(db.tips)
    ensures old(db.GetUserByAddress(address, links.lookup)).Err? ==>
      r.Err? && db.users == old(db.users) && db.nextId == old(db.nextId)
    ensures old(db.GetUserByAddress(address, links.lookup)).Ok? &&
            old(db.GetUserByAddress(address, links.lookup)).value.Some? ==>
      && r == Ok(old(db.GetUserByAddress(address, links.lookup)).value.value)
      && db.users == old(db.users) && db.nextId == old(db.nextId)
    ensures old(db.GetUserByAddress(address, links.lookup)) == Ok(None) && links.create.Down? ==>
      r.Err? && db.users == old(db.users) && db.nextId == old(db.nextId)
    ensures old(db.GetUserByAddress(address, links.lookup)) == Ok(None) && links.create.Up? ==>
      && r == Ok(User(old(db.nextId), address, farcasterId, now))
      && db.users == old(db.users) + [r.value] && db.nextId == old(db.nextId) + 1
    ensures r.Ok? ==> r.value in db.users && r.value.baseWalletAddress == address
  {
    var found := db.GetUserByAddress(address, links.lookup);
    if found.Err? {
      return Err(found.error);
    }
    if found.value.Some? {
      return Ok(found.value.value);
    }
    r := db.CreateUser(address, farcasterId, now, links.create);
  }

  /** `GET /api/profile?vanityUrl=` or `?address=`; the vanity URL wins when
      both are given. A failure of the final select is not reported: the
      answer is then 404, as when no profile exists. */
  function Get(db: Tables, vanityUrl: Option<string>, address: Option<string>, links: Links)
    : (reply: Reply<ProfileView>)
    reads db
    ensures !Truthy(vanityUrl) && !Truthy(address) ==> reply == Fail(400, ParameterRequired)
    // by vanity URL
    ensures Truthy(vanityUrl) ==>
      && (reply.Json? <==> links.lookup.Up? && |db.ProfilesWithVanityUrl(vanityUrl.value)| == 1)
      && (reply == Fail(500, FailedToFetch) <==> links.lookup.Down? && links.lookup.code != NotFoundCode)
      && (reply.Json? ==>
            && reply.body.Joined?
            && db.ProfilesWithVanityUrl(vanityUrl.value) == [reply.body.joined.profile]
            && reply.body.joined.owner == db.OwnerOf(reply.body.joined.profile.userId))
      && (!reply.Json? && reply != Fail(500, FailedToFetch) ==> reply == Fail(404, NotFound))
    // by wallet address
    ensures !Truthy(vanityUrl) && Truthy(address) ==>
      var users := db.UsersWithAddress(address.value);
      && (reply.Json? <==>
            && links.lookup.Up? && |users| == 1
            && links.profile.Up? && |db.ProfilesOfUser(users[0].userId)| == 1)
      && (reply == Fail(500, FailedToFetch) <==> links.lookup.Down? && links.lookup.code != NotFoundCode)
      && (reply.Json? ==>
            && reply.body.Plain?
            && db.ProfilesOfUser(users[0].userId) == [reply.body.profile]
            && reply.body.profile.userId == users[0].userId)
      && (!reply.Json? && reply != Fail(500, FailedToFetch) ==> reply == Fail(404, NotFound))
  {
    if !Truthy(vanityUrl) && !Truthy(address) then Fail(400, ParameterRequired)
    else if Truthy(vanityUrl) then
      match db.GetCreatorProfileByVanityUrl(vanityUrl.value, links.lookup)
      case Err(_) => Fail(500, FailedToFetch)
      case Ok(None) => Fail(404, NotFound)
      case Ok(Some(p)) => Json(Joined(p))
    else
      match db.GetUserByAddress(address.value, links.lookup)
      case Err(_) => Fail(500, FailedToFetch)
      case Ok(None) => Fail(404, NotFound)
      case Ok(Some(user)) =>
        match db.GetProfileOfUser(user.userId, links.profile)
        case Err(_) => Fail(404, NotFound)
        case Ok(profile) => Json(Plain(profile))
  }

  /** With a vanity URL the address parameter is never looked at. */
  lemma VanityUrlTakesPrecedence(db: Tables, vanityUrl: string, address: Option<string>, other: Option<string>,
                                 links: Links)
    requires vanityUrl != ""
    ensures Get(db, Some(vanityUrl), address, links) == Get(db, Some(vanityUrl), other, links)
  {
  }

  /** A first registration on empty tables creates one user and one
      profile. */
  method RegisterOnEmptyTables(address: string, displayName: string, now: int) returns (db: Tables)
    requires address != "" && displayName != ""
    ensures fresh(db) && db.Valid()
    ensures db.users == [User(0, address, None, now)]
    ensures db.profiles == [CreatorProfile(1, 0, displayName, None, Slug.Slugify(displayName), now)]
    ensures db.nextId == 2
  {
    db := new Tables();
    assert |db.UsersWithAddress(address)| == 0;
    assert db.GetUserByAddress(address, Up) == Ok(None);
    var reply := Post(db, Some(ProfileBody(Some(address), Some(displayName), None, None)), now, Links(Up, Up, Up));
  }

  /** Registering twice with the same wallet and display name reuses the
      user but adds a second profile with the same vanity URL; from then on
      neither lookup finds the creator, since `.single()` refuses two rows. */
  method RegisteringTwiceHidesTheProfile(address: string, displayName: string, now: int)
    returns (byVanityUrl: Reply<ProfileView>, byAddress: Reply<ProfileView>)
    requires address != "" && displayName != "" && Slug.Slugify(displayName) != ""
    ensures byVanityUrl == Fail(404, NotFound) && byAddress == Fail(404, NotFound)
  {
    var db := RegisterOnEmptyTables(address, displayName, now);
    WhereKeepsAll(db.users, (u: User) => u.baseWalletAddress == address);
    assert db.GetUserByAddress(address, Up) == Ok(Some(User(0, address, None, now)));
    var second := Post(db, Some(ProfileBody(Some(address), Some(displayName), None, None)), now, Links(Up, Up, Up));
    var slug := Slug.Slugify(displayName);
    assert db.users == [User(0, address, None, now)];
    assert db.profiles == [CreatorProfile(1, 0, displayName, None, slug, now),
                           CreatorProfile(2, 0, displayName, None, slug, now)];
    DuplicateProfilesAreHidden(db, address, slug);
    byVanityUrl := Get(db, Some(slug), None, Links(Up, Up, Up));
    byAddress := Get(db, None, Some(address), Links(Up, Up, Up));
  }

  /** Two profiles with the same vanity URL, both of the one user with the
      address: both lookups answer 404. */
  lemma DuplicateProfilesAreHidden(db: Tables, address: string, slug: string)
    requires address != "" && slug != ""
    requires |db.users| == 1 && db.users[0].baseWalletAddress == address
    requires |db.profiles| == 2
    requires forall i :: 0 <= i < 2 ==> db.profiles[i].vanityUrl == slug && db.profiles[i].userId == db.users[0].userId
    ensures Get(db, Some(slug), None, Links(Up, Up, Up)) == Fail(404, NotFound)
    ensures Get(db, None, Some(address), Links(Up, Up, Up)) == Fail(404, NotFound)
  {
    WhereKeepsAll(db.users, (u: User) => u.baseWalletAddress == address);
    WhereKeepsAll(db.profiles, (p: CreatorProfile) => p.vanityUrl == slug);
    var owner := db.users[0].userId;
    WhereKeepsAll(db.profiles, (p: CreatorProfile) => p.userId == owner);
    assert |db.ProfilesWithVanityUrl(slug)| == 2;
    assert |db.ProfilesOfUser(db.users[0].userId)| == 2;
  }
}
