/**
  The documents of the three stores the profile routes use (users, profiles
  and posts), the request bodies the mutating routes read, and the HTTP
  responses they send. Identifiers are strings; a document's `populate`d
  user name and avatar are not part of this model.
*/
module Documents {
  import opened Wrappers

  type UserId = string
  type PostId = string
  /** The `_id` the document store gives an experience or education entry. */
  type EntryId = string

  /**
    JavaScript truthiness of a request-body string field: an absent field
    and the empty string are both falsy. For a string read from the body,
    this is also exactly what `check(field).not().isEmpty()` accepts.
  */
  predicate Truthy(v: Option<string>) {
    v.Some? && v.value != ""
  }

  datatype User = User(name: string, email: string, avatar: string)

  datatype Post = Post(user: UserId, text: string)

  /** The `social` sub-record of a profile: its links, each optional. */
  datatype Social = Social(
    youtube: Option<string>,
    twitter: Option<string>,
    facebook: Option<string>,
    linkedin: Option<string>,
    instagram: Option<string>)

  const NoSocial := Social(None, None, None, None, None)

  datatype Experience = Experience(
    id: EntryId,
    title: Option<string>,
    company: Option<string>,
    location: Option<string>,
    from: Option<string>,
    to: Option<string>,
    current: Option<bool>,
    description: Option<string>)

  datatype Education = Education(
    id: EntryId,
    school: Option<string>,
    degree: Option<string>,
    fieldofstudy: Option<string>,
    from: Option<string>,
    to: Option<string>,
    current: Option<bool>,
    description: Option<string>)

  /** A stored profile; `experience` and `education` are newest first. */
  datatype Profile = Profile(
    user: UserId,
    company: Option<string>,
    website: Option<string>,
    location: Option<string>,
    bio: Option<string>,
    status: Option<string>,
    githubusername: Option<string>,
    skills: seq<string>,
    social: Social,
    experience: seq<Experience>,
    education: seq<Education>)

  /** The body of `POST /`. */
  datatype ProfileBody = ProfileBody(
    company: Option<string>,
    website: Option<string>,
    location: Option<string>,
    bio: Option<string>,
    status: Option<string>,
    githubusername: Option<string>,
    skills: Option<string>,
    youtube: Option<string>,
    facebook: Option<string>,
    twitter: Option<string>,
    instagram: Option<string>,
    linkedin: Option<string>)

  /** The body of `PUT /experience`. */
  datatype ExperienceBody = ExperienceBody(
    title: Option<string>,
    company: Option<string>,
    location: Option<string>,
    from: Option<string>,
    to: Option<string>,
    current: Option<bool>,
    description: Option<string>)

  /** The body of `PUT /education`. */
  datatype EducationBody = EducationBody(
    school: Option<string>,
    degree: Option<string>,
    fieldofstudy: Option<string>,
    from: Option<string>,
    to: Option<string>,
    current: Option<bool>,
    description: Option<string>)

  /** One entry of an `errors` array: the failed check's message, the field and where it was looked for. */
  datatype FieldError = FieldError(msg: string, param: string, location: string)

  /** What a response carries: `{msg}`, `{errors}`, a profile, the list of profiles, or a bare JSON string. */
  datatype Body =
    | Msg(msg: string)
    | Errors(errors: seq<FieldError>)
    | ProfileDoc(profile: Profile)
    | ProfileList(profiles: set<Profile>)
    | JsonText(text: string)

  datatype Response = Response(status: int, body: Body)

  /** A `:user_id` path parameter: either it casts to a user id, or the cast fails (a malformed ObjectId). */
  datatype PathId = Cast(id: UserId) | Malformed

  const NoProfileForUser := "There is no profile for this user"
  const ProfileNotFound := "Profile not found"
  const UserDeleted := "User deleted"
  const ServerError := "Server Error"

  /** The caught exception of a handler that dereferenced a missing profile: 500 with a JSON string. */
  const ServerErrorResponse := Response(500, JsonText(ServerError))

  /** `Post.deleteMany({ user })`: the posts whose author is someone else. */
  function PostsNotBy(posts: map<PostId, Post>, user: UserId): (r: map<PostId, Post>)
    ensures forall p :: p in r ==> r[p].user != user
    ensures forall p :: p in r <==> p in posts && posts[p].user != user
    ensures forall p :: p in r ==> r[p] == posts[p]
  {
    map p | p in posts && posts[p].user != user :: posts[p]
  }
}
