/**
 * The profile editor of the admin panel. It shows the single profile row,
 * or built-in defaults with an empty id when there is none, lets every
 * field be edited, and saves with an update when the profile has an id and
 * an insert otherwise, then fetches the row again.
 */
module ProfileManagerComponent {
  import opened Wrappers
  import opened Records
  import opened Remote
  import opened ImageUpload

  /** The values shown before (and unless) a profile row is fetched. The empty id marks the profile as never saved. */
  const DefaultProfile := Profile(
    "",
    "Gustavo Corrales Conislla",
    "Ingeniero de Sistemas e Informática",
    "Especializado en desarrollo de software, ciberseguridad e infraestructura tecnológica. "
      + "Apasionado por la innovación tecnológica y las soluciones de IA que transforman el futuro digital.",
    "gustavo18n@hotmail.com",
    Some("+51 960 950 894"),
    Some("Lima, Perú"),
    Some("https://linkedin.com/in/gustavo-corrales"),
    Some("https://github.com/gustavo-corrales"),
    Some("https://images.pexels.com/photos/2379004/pexels-photo-2379004.jpeg?auto=compress&cs=tinysrgb&w=400"),
    Some(""),
    "",
    "")

  /** The editable inputs, by their `name` attribute. The CV URL has no input. */
  datatype ProfileField =
    | Name | Title | Bio | Email | Phone | Location | LinkedinUrl | GithubUrl | ProfileImageUrl

  /** What an input shows: the field, an absent optional one as ''. */
  function FieldValue(p: Profile, f: ProfileField): string {
    match f
    case Name => p.name
    case Title => p.title
    case Bio => p.bio
    case Email => p.email
    case Phone => OrEmpty(p.phone)
    case Location => OrEmpty(p.location)
    case LinkedinUrl => OrEmpty(p.linkedinUrl)
    case GithubUrl => OrEmpty(p.githubUrl)
    case ProfileImageUrl => OrEmpty(p.profileImageUrl)
  }

  /** `{...prev, [name]: value}`: the typed text, '' included, becomes the field's value. */
  function WithField(p: Profile, f: ProfileField, value: string): Profile {
    match f
    case Name => p.(name := value)
    case Title => p.(title := value)
    case Bio => p.(bio := value)
    case Email => p.(email := value)
    case Phone => p.(phone := Some(value))
    case Location => p.(location := Some(value))
    case LinkedinUrl => p.(linkedinUrl := Some(value))
    case GithubUrl => p.(githubUrl := Some(value))
    case ProfileImageUrl => p.(profileImageUrl := Some(value))
  }

  /**
   * An edit shows up in its own input and in no other; the id, the
   * timestamps and the CV URL are never touched by an edit.
   */
  lemma {:induction false} EditShowsInItsInputOnly(p: Profile, f: ProfileField, value: string, g: ProfileField)
    ensures FieldValue(WithField(p, f, value), g) == if g == f then value else FieldValue(p, g)
    ensures var q := WithField(p, f, value);
      q.id == p.id && q.createdAt == p.createdAt && q.updatedAt == p.updatedAt && q.cvUrl == p.cvUrl
  {
    match f
    case Name =>
    case Title =>
    case Bio =>
    case Email =>
    case Phone =>
    case Location =>
    case LinkedinUrl =>
    case GithubUrl =>
    case ProfileImageUrl =>
  }

  /** The columns `handleSave` writes: the ten editable fields and a fresh `updated_at`, never the id or `created_at`. */
  datatype ProfilePayload = ProfilePayload(
    name: string,
    title: string,
    bio: string,
    email: string,
    phone: Option<string>,
    location: Option<string>,
    linkedinUrl: Option<string>,
    githubUrl: Option<string>,
    profileImageUrl: Option<string>,
    cvUrl: Option<string>,
    updatedAt: string)

  function PayloadOf(p: Profile, now: string): ProfilePayload {
    ProfilePayload(p.name, p.title, p.bio, p.email, p.phone, p.location,
      p.linkedinUrl, p.githubUrl, p.profileImageUrl, p.cvUrl, now)
  }

  /** The row a database holds after storing `data` under `id`, created at `createdAt`. */
  function StoredRow(id: string, createdAt: string, data: ProfilePayload): Profile {
    Profile(id, data.name, data.title, data.bio, data.email, data.phone, data.location,
      data.linkedinUrl, data.githubUrl, data.profileImageUrl, data.cvUrl, createdAt, data.updatedAt)
  }

  /**
   * A save loses nothing: the stored row is the edited profile with only
   * its id and timestamps replaced. An update (which keeps the row's id and
   * creation time) stores the edited profile itself, apart from `updated_at`.
   */
  lemma SaveStoresEveryField(p: Profile, id: string, createdAt: string, now: string)
    ensures StoredRow(id, createdAt, PayloadOf(p, now)) == p.(id := id, createdAt := createdAt, updatedAt := now)
    ensures StoredRow(p.id, p.createdAt, PayloadOf(p, now)) == p.(updatedAt := now)
  {
  }

  datatype ProfileSave =
    | Update(id: string, data: ProfilePayload)
    | Insert(id: string, createdAt: string, data: ProfilePayload)

  class ProfileManager {
    var profile: Profile
    var loading: bool
    var saving: bool

    /** Mounting shows the defaults while the first fetch is pending. */
    constructor ()
      ensures profile == DefaultProfile && profile.id == ""
      ensures loading && !saving
    {
      profile := DefaultProfile;
      loading := true;
      saving := false;
    }

    /**
     * `fetchProfile` with the database's answer: a found row replaces the
     * profile; "no row" (code PGRST116), any other error or an exception
     * keeps it. Loading ends either way.
     */
    method FetchProfile(reply: Single<Profile>) returns (notFound: bool)
      modifies this
      ensures reply.Found? ==> profile == reply.row
      ensures !reply.Found? ==> profile == old(profile)
      ensures notFound <==> reply == Failure("PGRST116")
      ensures !loading && saving == old(saving)
    {
      if reply.Found? {
        profile := reply.row;
      }
      notFound := reply == Failure("PGRST116");
      loading := false;
    }

    /** `handleInputChange`. The editor is rendered only once loading is over. */
    method HandleInputChange(f: ProfileField, value: string)
      requires !loading
      modifies this
      ensures profile == WithField(old(profile), f, value)
      ensures FieldValue(profile, f) == value
      ensures loading == old(loading) && saving == old(saving)
    {
      EditShowsInItsInputOnly(profile, f, value, f);
      profile := WithField(profile, f, value);
    }

    /**
     * `handleFileUpload` with the file's content read as `dataUrl`: size is
     * checked before type; an accepted file's data URL becomes the profile
     * image URL, to be stored on the next save.
     */
    method HandleFileUpload(file: Option<ImageFile>, dataUrl: string) returns (verdict: Option<Verdict>)
      requires !loading
      modifies this
      ensures file.None? ==> verdict.None?
      ensures file.Some? ==> verdict == Some(CheckSizeThenType(file.value))
      ensures verdict == Some(Accepted) ==> profile == old(profile).(profileImageUrl := Some(dataUrl))
      ensures verdict != Some(Accepted) ==> profile == old(profile)
      ensures loading == old(loading) && saving == old(saving)
    {
      if file.None? {
        return None;
      }
      verdict := Some(CheckSizeThenType(file.value));
      if verdict == Some(Accepted) {
        profile := profile.(profileImageUrl := Some(dataUrl));
      }
    }

    predicate SaveDisabled()
      reads this
    {
      saving
    }

    /**
     * `handleSave`, up to the database request: the disabled button sends
     * nothing; otherwise `saving` is set and the payload goes out as an
     * update of the profile's id when it has one, or as an insert with the
     * fresh id and creation time supplied.
     */
    method BeginSave(now: string, freshId: string, createdAt: string) returns (request: Option<ProfileSave>)
      requires !loading
      modifies this
      ensures request.None? <==> old(saving)
      ensures saving
      ensures request.Some? && profile.id != "" ==> request.value == Update(profile.id, PayloadOf(profile, now))
      ensures request.Some? && profile.id == "" ==> request.value == Insert(freshId, createdAt, PayloadOf(profile, now))
      ensures profile == old(profile) && loading == old(loading)
    {
      if saving {
        return None;
      }
      saving := true;
      if profile.id != "" {
        request := Some(Update(profile.id, PayloadOf(profile, now)));
      } else {
        request := Some(Insert(freshId, createdAt, PayloadOf(profile, now)));
      }
    }

    /**
     * The rest of `handleSave`. On success an insert's returned row (if
     * any) is shown, then the profile is fetched again with answer
     * `refetch`; on failure nothing is refetched. `saving` ends either way.
     */
    method FinishSave(request: ProfileSave, reply: Ack, returned: Option<Profile>, refetch: Single<Profile>)
      returns (refetched: bool)
      modifies this
      ensures refetched <==> reply == Done
      ensures !saving
      ensures reply != Done ==> profile == old(profile) && loading == old(loading)
      ensures reply == Done && refetch.Found? ==> profile == refetch.row
      ensures reply == Done && !refetch.Found? ==>
        profile == if request.Insert? && returned.Some? then returned.value else old(profile)
      ensures reply == Done ==> !loading
    {
      if reply == Done {
        if request.Insert? && returned.Some? {
          profile := returned.value;
        }
        var _ := FetchProfile(refetch);
        refetched := true;
      } else {
        refetched := false;
      }
      saving := false;
    }
  }
}
