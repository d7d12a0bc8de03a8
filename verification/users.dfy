/**
 * User profiles: create (one per user_id string), read, and the partial-merge update. Profiles
 * are filed under the user id string as given, never under an ObjectId.
 */
module Users {
  import opened Wrappers
  import opened Ids
  import opened Responses
  import opened Documents

  /** `UserProfileUpdate` after `exclude_unset` and the None filter: None means "leave as is". */
  datatype ProfileUpdate = ProfileUpdate(
    fullName: Option<string>, age: Option<int>, gender: Option<string>, height: Option<real>,
    weight: Option<real>, activityLevel: Option<string>, goal: Option<string>)

  /** The `data` member of the successful responses. */
  datatype ProfileData = ProfileCreated(profileId: string) | ProfileView(profile: ProfileDoc)
  {
    /**
     * The type of the first value `json.dumps` cannot encode: every stored profile carries the
     * `created_at` datetime `create_user_profile` writes with it, and only `_id` is made a string.
     */
    function Unencodable(): Option<string>
    {
      match this
      case ProfileCreated(_) => None
      case ProfileView(_) => Some("datetime")
    }
  }

  const InvalidIdDetail: string := "Invalid user ID"
  const NoProfileDetail: string := "User profile not found"

  /** The `{"_id": ObjectId(user_id)}` query on `users`. */
  function UserWithId(userId: string): UserDoc -> bool
    requires IsValidObjectId(userId)
  {
    (u: UserDoc) => u.id == Canonical(userId)
  }

  /** No two profiles are filed under the same user_id. */
  predicate OneProfilePerUserId(docs: seq<ProfileDoc>)
  {
    forall i, j :: 0 <= i < j < |docs| ==> docs[i].userId != docs[j].userId
  }

  /**
   * `create_user_profile`: 400 for an invalid id, 404 when no user has that id, 409 when a profile
   * is already filed under the id string; otherwise the payload is stored under `Str(userId)`
   * with the new profile id `newId`.
   */
  method CreateUserProfile(profiles: Collection<ProfileDoc>, users: seq<UserDoc>, userId: string,
                           payload: ProfileFields, newId: string)
    returns (resp: Response<ProfileData>)
    modifies profiles
    ensures !IsValidObjectId(userId) ==> resp == Detail(400, InvalidIdDetail) && profiles.docs == old(profiles.docs)
    ensures IsValidObjectId(userId) ==>
              if FindFirst(users, UserWithId(userId)) == |users| then
                resp == Detail(404, "User not found") && profiles.docs == old(profiles.docs)
              else if FindFirst(old(profiles.docs), ProfileOf(Str(userId))) < |old(profiles.docs)| then
                resp == Detail(409, "User profile already exists") && profiles.docs == old(profiles.docs)
              else
                && profiles.docs == old(profiles.docs) + [ProfileDoc(newId, Str(userId), payload)]
                && resp == ApiResponse("User profile created successfully", 201, Some(ProfileCreated(newId)))
    ensures OneProfilePerUserId(old(profiles.docs)) ==> OneProfilePerUserId(profiles.docs)
  {
    if !IsValidObjectId(userId) {
      return Detail(400, InvalidIdDetail);
    }
    var user := FindFirst(users, UserWithId(userId));
    if user == |users| {
      return Detail(404, "User not found");
    }
    var existing := FindFirst(profiles.docs, ProfileOf(Str(userId)));
    if existing < |profiles.docs| {
      return Detail(409, "User profile already exists");
    }
    if OneProfilePerUserId(profiles.docs) {
      NewUserIdKeepsOneProfile(profiles.docs, ProfileDoc(newId, Str(userId), payload));
    }
    profiles.InsertOne(ProfileDoc(newId, Str(userId), payload));
    resp := ApiResponse("User profile created successfully", 201, Some(ProfileCreated(newId)));
  }

  lemma {:induction false} NewUserIdKeepsOneProfile(docs: seq<ProfileDoc>, doc: ProfileDoc)
    requires OneProfilePerUserId(docs)
    requires FindFirst(docs, ProfileOf(doc.userId)) == |docs|
    ensures OneProfilePerUserId(docs + [doc])
  {
    var all := docs + [doc];
    forall i, j | 0 <= i < j < |all|
      ensures all[i].userId != all[j].userId
    {
      if j == |docs| {
        assert !ProfileOf(doc.userId)(docs[i]);
      }
    }
  }

  /**
   * The 409 guard compares id strings while the user lookup compares ObjectIds: two spellings
   * of one ObjectId, upper and lower case, name the same user but file two profiles.
   */
  lemma {:induction false} ProfileUniquenessIsPerSpelling()
    ensures var upper, lower := "0123456789ABCDEF01234567", "0123456789abcdef01234567";
            && IsValidObjectId(upper) && IsValidObjectId(lower)
            && Canonical(upper) == Canonical(lower) && Str(upper) != Str(lower)
  {
    var upper, lower := "0123456789ABCDEF01234567", "0123456789abcdef01234567";
    assert upper[10] != lower[10];
    assert Canonical(upper) == lower;
    assert Canonical(lower) == lower;
  }

  /**
   * `get_user_profile`: the first profile filed under the id string is handed to `api_response`,
   * whose encoder raises on its `created_at` datetime, so a found profile is answered with 500.
   */
  method GetUserProfile(profiles: seq<ProfileDoc>, userId: string) returns (resp: Response<ProfileData>)
    ensures !IsValidObjectId(userId) ==> resp == Detail(400, InvalidIdDetail)
    ensures IsValidObjectId(userId) ==>
              var k := FindFirst(profiles, ProfileOf(Str(userId)));
              if k == |profiles| then resp == Detail(404, NoProfileDetail)
              else resp == InternalError
  {
    if !IsValidObjectId(userId) {
      return Detail(400, InvalidIdDetail);
    }
    var k := FindFirst(profiles, ProfileOf(Str(userId)));
    if k == |profiles| {
      return Detail(404, NoProfileDetail);
    }
    var view := ProfileView(profiles[k]);
    resp := Uncaught(CallApiResponse("User profile fetched successfully", 200, Some(view), view.Unencodable()));
  }

  predicate NothingToUpdate(u: ProfileUpdate)
  {
    u.fullName.None? && u.age.None? && u.gender.None? && u.height.None? && u.weight.None?
    && u.activityLevel.None? && u.goal.None?
  }

  function Pick<T>(update: Option<T>, current: T): T
  {
    if update.Some? then update.value else current
  }

  /** `{"$set": update_data}`: each supplied field is overwritten, every other field is kept. */
  function Merge(f: ProfileFields, u: ProfileUpdate): (r: ProfileFields)
    ensures u.fullName.Some? ==> r.fullName == u.fullName.value
    ensures u.fullName.None? ==> r.fullName == f.fullName
    ensures u.age.Some? ==> r.age == u.age.value
    ensures u.age.None? ==> r.age == f.age
    ensures u.gender.Some? ==> r.gender == u.gender.value
    ensures u.gender.None? ==> r.gender == f.gender
    ensures u.height.Some? ==> r.height == u.height.value
    ensures u.height.None? ==> r.height == f.height
    ensures u.weight.Some? ==> r.weight == u.weight.value
    ensures u.weight.None? ==> r.weight == f.weight
    ensures u.activityLevel.Some? ==> r.activityLevel == u.activityLevel.value
    ensures u.activityLevel.None? ==> r.activityLevel == f.activityLevel
    ensures u.goal.Some? ==> r.goal == u.goal.value
    ensures u.goal.None? ==> r.goal == f.goal
  {
    ProfileFields(Pick(u.fullName, f.fullName), Pick(u.age, f.age), Pick(u.gender, f.gender),
                  Pick(u.height, f.height), Pick(u.weight, f.weight),
                  Pick(u.activityLevel, f.activityLevel), Pick(u.goal, f.goal))
  }

  /** An empty update changes nothing, and applying the same update twice is applying it once. */
  lemma {:induction false} MergeLaws(f: ProfileFields, u: ProfileUpdate)
    ensures NothingToUpdate(u) ==> Merge(f, u) == f
    ensures Merge(Merge(f, u), u) == Merge(f, u)
  {
  }

  /** Replacing the first match by a document that still matches leaves it the first match. */
  lemma {:induction false} FirstMatchSurvivesUpdate(docs: seq<ProfileDoc>, k: nat, doc: ProfileDoc, matches: ProfileDoc -> bool)
    requires k == FindFirst(docs, matches) && k < |docs| && matches(doc)
    ensures FindFirst(docs[k := doc], matches) == k
  {
    if k > 0 {
      assert docs[k := doc][1..] == docs[1..][k - 1 := doc];
      FirstMatchSurvivesUpdate(docs[1..], k - 1, doc, matches);
    }
  }

  /**
   * `update_user_profile`: 400 for an invalid id, 404 without a profile, 400 when the update
   * supplies no field; otherwise the first profile filed under the id string gets the supplied
   * fields. The profile read back after the write is handed to `api_response`, whose encoder
   * raises on its `created_at` datetime: the write stays and the answer is a 500.
   */
  method UpdateUserProfile(profiles: Collection<ProfileDoc>, userId: string, payload: ProfileUpdate)
    returns (resp: Response<ProfileData>)
    modifies profiles
    ensures !IsValidObjectId(userId) ==> resp == Detail(400, InvalidIdDetail) && profiles.docs == old(profiles.docs)
    ensures IsValidObjectId(userId) ==>
              var k := FindFirst(old(profiles.docs), ProfileOf(Str(userId)));
              if k == |old(profiles.docs)| then
                resp == Detail(404, NoProfileDetail) && profiles.docs == old(profiles.docs)
              else if NothingToUpdate(payload) then
                resp == Detail(400, "No valid fields to update") && profiles.docs == old(profiles.docs)
              else
                var updated := old(profiles.docs)[k].(fields := Merge(old(profiles.docs)[k].fields, payload));
                && profiles.docs == old(profiles.docs)[k := updated]
                && resp == InternalError
  {
    if !IsValidObjectId(userId) {
      return Detail(400, InvalidIdDetail);
    }
    var key := Str(userId);
    var k := FindFirst(profiles.docs, ProfileOf(key));
    if k == |profiles.docs| {
      return Detail(404, NoProfileDetail);
    }
    if NothingToUpdate(payload) {
      return Detail(400, "No valid fields to update");
    }
    var updated := profiles.docs[k].(fields := Merge(profiles.docs[k].fields, payload));
    FirstMatchSurvivesUpdate(profiles.docs, k, updated, ProfileOf(key));
    profiles.UpdateAt(k, updated);
    var reread := FindFirst(profiles.docs, ProfileOf(key));
    var view := ProfileView(profiles.docs[reread]);
    resp := Uncaught(CallApiResponse("User profile updated successfully", 200, Some(view), view.Unencodable()));
  }

  /**
   * The profiles this file writes are filed under strings, so a lookup by
   * `{"user_id": ObjectId(...)}`, as the workout progress handlers do, never finds them.
   */
  lemma {:induction false} StringFiledProfilesInvisibleToObjectIdLookup(docs: seq<ProfileDoc>, userId: string)
    requires IsValidObjectId(userId)
    requires forall p :: p in docs ==> p.userId.Str?
    ensures FindFirst(docs, ProfileOf(ObjectIdKey(userId))) == |docs|
  {
    if docs != [] {
      assert docs[0] in docs;
      assert forall p :: p in docs[1..] ==> p in docs;
      StringFiledProfilesInvisibleToObjectIdLookup(docs[1..], userId);
    }
  }
}
