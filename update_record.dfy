/**
  The update record `POST /` builds from its request body, and the two
  ways the store applies it: `$set` into an existing profile, or a new
  profile made from it.
*/
module UpdateRecord {
  import opened Wrappers
  import opened Documents
  import opened JsStrings

  /** `pieces.map(p => p.trim())`. */
  function TrimAll(pieces: seq<string>): (r: seq<string>)
    ensures |r| == |pieces|
    ensures forall i :: 0 <= i < |r| ==> r[i] == Trim(pieces[i])
  {
    if pieces == [] then [] else [Trim(pieces[0])] + TrimAll(pieces[1..])
  }

  /** `skills.split(',').map(skill => skill.trim())`. */
  function ParseSkills(skills: string): (r: seq<string>)
    ensures |r| == multiset(skills)[','] + 1
    ensures forall i :: 0 <= i < |r| ==> IsTrimmed(r[i])
  {
    SplitCount(skills, ',');
    TrimAll(Split(skills, ','))
  }

  /**
    One skill per comma-separated piece of `skills`, each piece with the
    whitespace around it removed and none of them holding a comma.
  */
  lemma ParseSkillsPieces(skills: string)
    ensures |ParseSkills(skills)| == |Split(skills, ',')| == multiset(skills)[','] + 1
    ensures forall i :: 0 <= i < |ParseSkills(skills)| ==> IsTrimOf(ParseSkills(skills)[i], Split(skills, ',')[i])
    ensures forall i :: 0 <= i < |ParseSkills(skills)| ==> ',' !in ParseSkills(skills)[i]
  {
    var pieces, r := Split(skills, ','), ParseSkills(skills);
    SplitCount(skills, ',');
    SplitPiecesFree(skills, ',');
    forall i | 0 <= i < |r|
      ensures ',' !in r[i] && IsTrimOf(r[i], pieces[i])
    {
      var k := SkipStart(pieces[i], 0);
      assert InfixAt(pieces[i], r[i], k);
      if ',' in r[i] { TrimKeepsCharacters(pieces[i], ','); }
    }
  }

  /** "a, b ,c" is read as ["a", "b", "c"]. */
  lemma ParseSkillsExample()
    ensures ParseSkills("a, b ,c") == ["a", "b", "c"]
  {
    ParseSkillsSpaced('a', 'b', 'c');
  }

  /** Three one-character skills, the middle one padded with spaces, read back without the padding. */
  lemma ParseSkillsSpaced(x: char, y: char, z: char)
    requires x != ',' && y != ',' && z != ','
    requires !IsWhitespace(x) && !IsWhitespace(y) && !IsWhitespace(z)
    ensures ParseSkills([x, ',', ' ', y, ' ', ',', z]) == [[x], [y], [z]]
  {
    SplitThree(x, y, z);
    ParseSkillsOfThree([x, ',', ' ', y, ' ', ',', z], [x], [' ', y, ' '], [z]);
    TrimPadded(y);
    TrimSingle(x);
    TrimSingle(z);
  }

  lemma TrimPadded(y: char)
    requires !IsWhitespace(y)
    ensures Trim([' ', y, ' ']) == [y]
  {
    TrimUnique([' ', y, ' '], [y], 1);
  }

  lemma TrimSingle(x: char)
    requires !IsWhitespace(x)
    ensures Trim([x]) == [x]
  {
  }

  lemma SplitThree(x: char, y: char, z: char)
    requires x != ',' && y != ',' && z != ','
    ensures Split([x, ',', ' ', y, ' ', ',', z], ',') == [[x], [' ', y, ' '], [z]]
  {
    var p := [[x], [' ', y, ' '], [z]];
    JoinCons(p[1], [p[2]], ',');
    JoinCons(p[0], p[1..], ',');
    assert p[1..] == [p[1], p[2]];
    assert Join(p, ',') == [x, ',', ' ', y, ' ', ',', z];
    JoinSplit(p, ',');
  }

  lemma ParseSkillsOfThree(s: string, a: string, b: string, c: string)
    requires Split(s, ',') == [a, b, c]
    ensures ParseSkills(s) == [Trim(a), Trim(b), Trim(c)]
  {
  }

  /** The sparse record a request builds: `user` always, the rest only where the body supplied a value. */
  datatype ProfileRecord = ProfileRecord(
    user: UserId,
    company: Option<string>,
    website: Option<string>,
    location: Option<string>,
    bio: Option<string>,
    status: Option<string>,
    githubusername: Option<string>,
    skills: Option<seq<string>>,
    social: Social)

  /** `kept` is present exactly when `supplied` is truthy, and is then the supplied value. */
  predicate KeptIffTruthy(kept: Option<string>, supplied: Option<string>) {
    && (kept.Some? <==> Truthy(supplied))
    && (kept.Some? ==> kept == supplied)
  }

  function KeepIfTruthy(v: Option<string>): Option<string> {
    if Truthy(v) then v else None
  }

  /** The record `profileFields` ends up holding, for caller `caller` and body `b`. */
  function ProfileFields(caller: UserId, b: ProfileBody): (r: ProfileRecord)
    ensures r.user == caller
    ensures KeptIffTruthy(r.company, b.company) && KeptIffTruthy(r.website, b.website)
    ensures KeptIffTruthy(r.location, b.location) && KeptIffTruthy(r.bio, b.bio)
    ensures KeptIffTruthy(r.status, b.status) && KeptIffTruthy(r.githubusername, b.githubusername)
    ensures r.skills.Some? <==> Truthy(b.skills)
    ensures r.skills.Some? ==> r.skills.value == ParseSkills(b.skills.value)
    ensures KeptIffTruthy(r.social.youtube, b.youtube) && KeptIffTruthy(r.social.twitter, b.twitter)
    ensures KeptIffTruthy(r.social.facebook, b.facebook) && KeptIffTruthy(r.social.linkedin, b.linkedin)
    ensures KeptIffTruthy(r.social.instagram, b.instagram)
  {
    ProfileRecord(
      caller,
      KeepIfTruthy(b.company), KeepIfTruthy(b.website), KeepIfTruthy(b.location),
      KeepIfTruthy(b.bio), KeepIfTruthy(b.status), KeepIfTruthy(b.githubusername),
      if Truthy(b.skills) then Some(ParseSkills(b.skills.value)) else None,
      SocialLinks(b))
  }

  /** The `social` sub-record of the update: only the links the body supplied. */
  function SocialLinks(b: ProfileBody): (s: Social)
    ensures KeptIffTruthy(s.youtube, b.youtube) && KeptIffTruthy(s.twitter, b.twitter)
    ensures KeptIffTruthy(s.facebook, b.facebook) && KeptIffTruthy(s.linkedin, b.linkedin)
    ensures KeptIffTruthy(s.instagram, b.instagram)
  {
    Social(
      KeepIfTruthy(b.youtube), KeepIfTruthy(b.twitter), KeepIfTruthy(b.facebook),
      KeepIfTruthy(b.linkedin), KeepIfTruthy(b.instagram))
  }

  /** The handler's field-by-field construction of `profileFields`. */
  method BuildProfileFields(caller: UserId, b: ProfileBody) returns (fields: ProfileRecord)
    ensures fields == ProfileFields(caller, b)
  {
    fields := ProfileRecord(caller, None, None, None, None, None, None, None, NoSocial);
    if Truthy(b.company) { fields := fields.(company := b.company); }
    if Truthy(b.website) { fields := fields.(website := b.website); }
    assert fields == ProfileRecord(caller, KeepIfTruthy(b.company), KeepIfTruthy(b.website),
      None, None, None, None, None, NoSocial);
    if Truthy(b.location) { fields := fields.(location := b.location); }
    if Truthy(b.bio) { fields := fields.(bio := b.bio); }
    assert fields == ProfileRecord(caller, KeepIfTruthy(b.company), KeepIfTruthy(b.website),
      KeepIfTruthy(b.location), KeepIfTruthy(b.bio), None, None, None, NoSocial);
    if Truthy(b.status) { fields := fields.(status := b.status); }
    if Truthy(b.githubusername) { fields := fields.(githubusername := b.githubusername); }
    if Truthy(b.skills) {
      fields := fields.(skills := Some(ParseSkills(b.skills.value)));
    }
    assert fields == ProfileRecord(caller, KeepIfTruthy(b.company), KeepIfTruthy(b.website),
      KeepIfTruthy(b.location), KeepIfTruthy(b.bio), KeepIfTruthy(b.status), KeepIfTruthy(b.githubusername),
      if Truthy(b.skills) then Some(ParseSkills(b.skills.value)) else None, NoSocial);
    var social := BuildSocial(b);
    fields := fields.(social := social);
  }

  /** The handler's construction of `profileFields.social`, starting from `{}`, one link at a time. */
  method BuildSocial(b: ProfileBody) returns (social: Social)
    ensures social == SocialLinks(b)
  {
    social := NoSocial;
    if Truthy(b.youtube) { social := social.(youtube := b.youtube); }
    if Truthy(b.twitter) { social := social.(twitter := b.twitter); }
    if Truthy(b.facebook) { social := social.(facebook := b.facebook); }
    if Truthy(b.linkedin) { social := social.(linkedin := b.linkedin); }
    if Truthy(b.instagram) { social := social.(instagram := b.instagram); }
  }

  /** `now` is what `$set` leaves in a field: the record's value `given` where it has one, the old value otherwise. */
  predicate Overwritten(now: Option<string>, given: Option<string>, was: Option<string>) {
    && (given.Some? ==> now == given)
    && (given.None? ==> now == was)
  }

  /** One field under `$set`: the given value where there is one, the old value otherwise. */
  function SetValue(given: Option<string>, was: Option<string>): Option<string> {
    if given.Some? then given else was
  }

  /** `findOneAndUpdate({ user }, { $set: r })`: top-level fields of `r` replace the stored ones. */
  function SetFields(p: Profile, r: ProfileRecord): (q: Profile)
    ensures q.user == r.user
    ensures Overwritten(q.company, r.company, p.company) && Overwritten(q.website, r.website, p.website)
    ensures Overwritten(q.location, r.location, p.location) && Overwritten(q.bio, r.bio, p.bio)
    ensures Overwritten(q.status, r.status, p.status)
    ensures Overwritten(q.githubusername, r.githubusername, p.githubusername)
    ensures r.skills.Some? ==> q.skills == r.skills.value
    ensures r.skills.None? ==> q.skills == p.skills
    ensures q.social == r.social
    ensures q.experience == p.experience && q.education == p.education
  {
    Profile(
      r.user,
      SetValue(r.company, p.company),
      SetValue(r.website, p.website),
      SetValue(r.location, p.location),
      SetValue(r.bio, p.bio),
      SetValue(r.status, p.status),
      SetValue(r.githubusername, p.githubusername),
      r.skills.GetOr(p.skills),
      r.social,
      p.experience,
      p.education)
  }

  /** `new Profile(r)`: the record's fields, with empty `skills`, `experience` and `education` arrays where it has none. */
  function CreateProfile(r: ProfileRecord): (q: Profile)
    ensures q.user == r.user && q.social == r.social
    ensures q.company == r.company && q.website == r.website && q.location == r.location
    ensures q.bio == r.bio && q.status == r.status && q.githubusername == r.githubusername
    ensures q.skills == r.skills.GetOr([])
    ensures q.experience == [] && q.education == []
  {
    Profile(r.user, r.company, r.website, r.location, r.bio, r.status, r.githubusername,
            r.skills.GetOr([]), r.social, [], [])
  }

  /** Setting the same record twice is setting it once. */
  lemma SetFieldsIdempotent(p: Profile, r: ProfileRecord)
    ensures SetFields(SetFields(p, r), r) == SetFields(p, r)
  {
  }

  /** Setting a record into the profile it created changes nothing. */
  lemma SetFieldsAfterCreate(r: ProfileRecord)
    ensures SetFields(CreateProfile(r), r) == CreateProfile(r)
  {
  }

  /**
    After an upsert of body `b` for `caller`, each text field of the stored
    profile holds the supplied value where it was truthy, and otherwise the
    value the profile had before (nothing, for a new profile).
  */
  lemma UpsertedFields(caller: UserId, b: ProfileBody, p: Profile)
    ensures var q := SetFields(p, ProfileFields(caller, b));
      && q.user == caller
      && q.company == (if Truthy(b.company) then b.company else p.company)
      && q.website == (if Truthy(b.website) then b.website else p.website)
      && q.location == (if Truthy(b.location) then b.location else p.location)
      && q.bio == (if Truthy(b.bio) then b.bio else p.bio)
      && q.status == (if Truthy(b.status) then b.status else p.status)
      && q.githubusername == (if Truthy(b.githubusername) then b.githubusername else p.githubusername)
      && q.skills == (if Truthy(b.skills) then ParseSkills(b.skills.value) else p.skills)
      && q.social == ProfileFields(caller, b).social
  {
  }
}
