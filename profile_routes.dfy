/**
  The profile routes as one controller over an in-memory store: users,
  profiles keyed by the user they belong to, and posts. Authentication is a
  given caller id, and each handler runs as one atomic step.
*/
module ProfileRoutes {
  import opened Wrappers
  import opened Documents
  import opened Validation
  import opened UpdateRecord
  import opened SubRecords

  class ProfileController {
    var users: map<UserId, User>
    var profiles: map<UserId, Profile>
    var posts: map<PostId, Post>

    /** Each stored profile belongs to the user it is filed under; one profile per user. */
    ghost predicate Valid()
      reads this
    {
      forall u :: u in profiles ==> profiles[u].user == u
    }

    constructor (users0: map<UserId, User>, profiles0: map<UserId, Profile>, posts0: map<PostId, Post>)
      requires forall u :: u in profiles0 ==> profiles0[u].user == u
      ensures Valid()
      ensures users == users0 && profiles == profiles0 && posts == posts0
    {
      users, profiles, posts := users0, profiles0, posts0;
    }

    /** Files `q` under `u`, its owner, leaving every other entry of the store as it was. */
    method Put(u: UserId, q: Profile)
      requires Valid() && q.user == u
      modifies this
      ensures Valid()
      ensures profiles == old(profiles)[u := q]
      ensures users == old(users) && posts == old(posts)
    {
      profiles := profiles[u := q];
    }

    /** `GET /me`: the caller's own profile, or 400 when there is none. */
    function GetOwnProfile(caller: UserId): (r: Response)
      reads this
      ensures r.status == 200 <==> caller in profiles
      ensures caller in profiles ==> r.body == ProfileDoc(profiles[caller])
      ensures caller !in profiles ==> r == Response(400, Msg(NoProfileForUser))
      ensures Valid() && r.status == 200 ==> r.body.profile.user == caller
    {
      if caller in profiles then Response(200, ProfileDoc(profiles[caller]))
      else Response(400, Msg(NoProfileForUser))
    }

    /** `GET /`: every stored profile, and nothing else; an empty store gives an empty list. */
    function ListProfiles(): (r: Response)
      reads this
      ensures r.status == 200 && r.body.ProfileList?
      ensures forall u :: u in profiles ==> profiles[u] in r.body.profiles
      ensures forall q :: q in r.body.profiles ==> exists u :: u in profiles && profiles[u] == q
      ensures Valid() ==> forall q, q' :: q in r.body.profiles && q' in r.body.profiles && q.user == q'.user ==> q == q'
    {
      Response(200, ProfileList(profiles.Values))
    }

    /** `GET /user/:user_id`: that user's profile; a missing profile and a malformed id both give 400. */
    function GetProfileByUserId(userId: PathId): (r: Response)
      reads this
      ensures r.status == 200 <==> userId.Cast? && userId.id in profiles
      ensures r.status == 200 ==> r.body == ProfileDoc(profiles[userId.id])
      ensures r.status != 200 ==> r == Response(400, Msg(ProfileNotFound))
    {
      match userId
      case Malformed => Response(400, Msg(ProfileNotFound))
      case Cast(u) =>
        if u in profiles then Response(200, ProfileDoc(profiles[u]))
        else Response(400, Msg(ProfileNotFound))
    }

    /**
      `POST /`: validate, build the update record, then `$set` it into the
      caller's profile, or create the profile from it when there is none.
    */
    method UpsertProfile(caller: UserId, b: ProfileBody) returns (r: Response)
      requires Valid()
      modifies this
      ensures Valid()
      ensures users == old(users) && posts == old(posts)
      ensures ProfileErrors(b) != [] ==>
        r == Response(400, Errors(ProfileErrors(b))) && profiles == old(profiles)
      ensures ProfileErrors(b) == [] && caller in old(profiles) ==>
        var q := SetFields(old(profiles)[caller], ProfileFields(caller, b));
        profiles == old(profiles)[caller := q] && r == Response(200, ProfileDoc(q))
      ensures ProfileErrors(b) == [] && caller !in old(profiles) ==>
        var q := CreateProfile(ProfileFields(caller, b));
        profiles == old(profiles)[caller := q] && r == Response(200, ProfileDoc(q))
      ensures profiles.Keys == old(profiles).Keys + (if ProfileErrors(b) == [] then {caller} else {})
    {
      var errors := ProfileErrors(b);
      if errors != [] {
        return Response(400, Errors(errors));
      }
      var fields := BuildProfileFields(caller, b);
      if caller in profiles {
        var updated := SetFields(profiles[caller], fields);
        Put(caller, updated);
        return Response(200, ProfileDoc(updated));
      }
      var created := CreateProfile(fields);
      Put(caller, created);
      r := Response(200, ProfileDoc(created));
    }

    /** `DELETE /`: the caller's posts, then the caller's profile, then the caller's user record. */
    method DeleteAccount(caller: UserId) returns (r: Response)
      requires Valid()
      modifies this
      ensures Valid()
      ensures posts == PostsNotBy(old(posts), caller)
      ensures profiles == old(profiles) - {caller}
      ensures users == old(users) - {caller}
      ensures r == Response(200, Msg(UserDeleted))
      ensures forall p :: p in posts ==> posts[p].user != caller
      ensures forall u :: u in old(profiles) && u != caller ==> u in profiles && profiles[u] == old(profiles)[u]
      ensures forall u :: u in old(users) && u != caller ==> u in users && users[u] == old(users)[u]
      ensures GetProfileByUserId(Cast(caller)) == Response(400, Msg(ProfileNotFound))
    {
      posts := PostsNotBy(posts, caller);
      profiles := profiles - {caller};
      users := users - {caller};
      r := Response(200, Msg(UserDeleted));
    }

    /**
      `PUT /experience`: validate, then put the new entry in front of the
      caller's experience list. Without a profile, the dereference of the
      missing document is caught and answered with 500.
    */
    method AddExperience(caller: UserId, b: ExperienceBody, newId: EntryId) returns (r: Response)
      requires Valid()
      modifies this
      ensures Valid()
      ensures users == old(users) && posts == old(posts)
      ensures ExperienceErrors(b) != [] ==>
        r == Response(400, Errors(ExperienceErrors(b))) && profiles == old(profiles)
      ensures ExperienceErrors(b) == [] && caller !in old(profiles) ==>
        r == ServerErrorResponse && profiles == old(profiles)
      ensures ExperienceErrors(b) == [] && caller in old(profiles) ==>
        var p := old(profiles)[caller];
        var q := p.(experience := [NewExperience(newId, b)] + p.experience);
        profiles == old(profiles)[caller := q] && r == Response(200, ProfileDoc(q))
    {
      var errors := ExperienceErrors(b);
      if errors != [] {
        return Response(400, Errors(errors));
      }
      var entry := NewExperience(newId, b);
      if caller !in profiles {
        return ServerErrorResponse;
      }
      var profile := profiles[caller];
      profile := profile.(experience := [entry] + profile.experience);
      Put(caller, profile);
      r := Response(200, ProfileDoc(profile));
    }

    /**
      `DELETE /experience/:exp_id`, as written: the splice index comes from a
      `map` over the experience list whose callback returns nothing, so the
      first entry is removed whatever `expId` is.
    */
    method RemoveExperience(caller: UserId, expId: EntryId) returns (r: Response)
      requires Valid()
      modifies this
      ensures Valid()
      ensures users == old(users) && posts == old(posts)
      ensures caller !in old(profiles) ==> r == ServerErrorResponse && profiles == old(profiles)
      ensures caller in old(profiles) ==>
        var p := old(profiles)[caller];
        var q := p.(experience := if p.experience == [] then [] else p.experience[1..]);
        profiles == old(profiles)[caller := q] && r == Response(200, ProfileDoc(q))
    {
      if caller !in profiles {
        return ServerErrorResponse;
      }
      var profile := profiles[caller];
      var indexes := |profile.experience|;  // the length of the `map` result, all undefined
      profile := profile.(experience := RemoveAsWritten(profile.experience, indexes));
      Put(caller, profile);
      r := Response(200, ProfileDoc(profile));
    }

    /** `PUT /education`: as `AddExperience`, on the education list. */
    method AddEducation(caller: UserId, b: EducationBody, newId: EntryId) returns (r: Response)
      requires Valid()
      modifies this
      ensures Valid()
      ensures users == old(users) && posts == old(posts)
      ensures EducationErrors(b) != [] ==>
        r == Response(400, Errors(EducationErrors(b))) && profiles == old(profiles)
      ensures EducationErrors(b) == [] && caller !in old(profiles) ==>
        r == ServerErrorResponse && profiles == old(profiles)
      ensures EducationErrors(b) == [] && caller in old(profiles) ==>
        var p := old(profiles)[caller];
        var q := p.(education := [NewEducation(newId, b)] + p.education);
        profiles == old(profiles)[caller := q] && r == Response(200, ProfileDoc(q))
    {
      var errors := EducationErrors(b);
      if errors != [] {
        return Response(400, Errors(errors));
      }
      var entry := NewEducation(newId, b);
      if caller !in profiles {
        return ServerErrorResponse;
      }
      var profile := profiles[caller];
      profile := profile.(education := [entry] + profile.education);
      Put(caller, profile);
      r := Response(200, ProfileDoc(profile));
    }

    /**
      `DELETE /education/:edu_id`, as written: the `map` runs over the
      experience list rather than the education list, its result is again
      an array of undefined, and the first education entry is removed
      whatever `eduId` is. The experience list is left alone.
    */
    method RemoveEducation(caller: UserId, eduId: EntryId) returns (r: Response)
      requires Valid()
      modifies this
      ensures Valid()
      ensures users == old(users) && posts == old(posts)
      ensures caller !in old(profiles) ==> r == ServerErrorResponse && profiles == old(profiles)
      ensures caller in old(profiles) ==>
        var p := old(profiles)[caller];
        var q := p.(education := if p.education == [] then [] else p.education[1..]);
        profiles == old(profiles)[caller := q] && r == Response(200, ProfileDoc(q))
    {
      if caller !in profiles {
        return ServerErrorResponse;
      }
      var profile := profiles[caller];
      var indexes := |profile.experience|;  // the `map` runs over experience
      profile := profile.(education := RemoveAsWritten(profile.education, indexes));
      Put(caller, profile);
      r := Response(200, ProfileDoc(profile));
    }
  }
}
