/**
 * The wizard's draft profile (`formData` of the profile creator), the keys it
 * is made of, and the shallow merge `{ ...prev, ...patch }` through which every
 * step view edits it.
 */
module Draft {
  import opened Base

  /** One entry of the experience list. */
  datatype Experience = Experience(title: string, company: string, startDate: string, endDate: string, description: string)

  /** One entry of the education list. */
  datatype Education = Education(degree: string, institution: string, year: string)

  /** The browser `File` chosen as profile picture; only its name matters to the wizard. */
  datatype File = File(name: string)

  /** The draft record: every scalar is a string, the picture may be absent, the rest are lists. */
  datatype Profile = Profile(
    // personal details
    fullName: string, position: string, organization: string, bio: string,
    profilePicture: Option<File>,
    // contact information
    phone: string, email: string, whatsapp: string, telegram: string,
    // social links
    linkedin: string, tiktok: string, twitter: string, facebook: string, youtube: string, website: string,
    // professional details
    skills: seq<string>, interests: seq<string>,
    experiences: seq<Experience>, education: seq<Education>)

  /** The keys of the draft record. */
  datatype Key =
    | FullName | Position | Organization | Bio | ProfilePicture
    | Phone | Email | Whatsapp | Telegram
    | Linkedin | Tiktok | Twitter | Facebook | Youtube | Website
    | Skills | Interests | Experiences | EducationList

  const AllKeys: set<Key> := {
    FullName, Position, Organization, Bio, ProfilePicture,
    Phone, Email, Whatsapp, Telegram,
    Linkedin, Tiktok, Twitter, Facebook, Youtube, Website,
    Skills, Interests, Experiences, EducationList }

  /** `AllKeys` lists every key of the record. */
  lemma AllKeysComplete()
    ensures forall k: Key :: k in AllKeys
  {
    forall k: Key
      ensures k in AllKeys
    {
      match k
      case FullName =>
      case Position =>
      case Organization =>
      case Bio =>
      case ProfilePicture =>
      case Phone =>
      case Email =>
      case Whatsapp =>
      case Telegram =>
      case Linkedin =>
      case Tiktok =>
      case Twitter =>
      case Facebook =>
      case Youtube =>
      case Website =>
      case Skills =>
      case Interests =>
      case Experiences =>
      case EducationList =>
    }
  }

  /** The list-valued keys, edited by the professional-details step. */
  const ListKeys: set<Key> := {Skills, Interests, Experiences, EducationList}

  /** A JavaScript value as it can sit under one key of the draft or of a stored row. */
  datatype Value =
    | Str(text: string)
    | Picture(file: Option<File>)
    | TextList(texts: seq<string>)
    | ExperienceList(experiences: seq<Experience>)
    | EducationEntries(entries: seq<Education>)
    | Undefined

  /** `d[k]`: the value the draft holds under key `k`. */
  function Get(d: Profile, k: Key): Value
  {
    match k
    case FullName => Str(d.fullName)
    case Position => Str(d.position)
    case Organization => Str(d.organization)
    case Bio => Str(d.bio)
    case ProfilePicture => Picture(d.profilePicture)
    case Phone => Str(d.phone)
    case Email => Str(d.email)
    case Whatsapp => Str(d.whatsapp)
    case Telegram => Str(d.telegram)
    case Linkedin => Str(d.linkedin)
    case Tiktok => Str(d.tiktok)
    case Twitter => Str(d.twitter)
    case Facebook => Str(d.facebook)
    case Youtube => Str(d.youtube)
    case Website => Str(d.website)
    case Skills => TextList(d.skills)
    case Interests => TextList(d.interests)
    case Experiences => ExperienceList(d.experiences)
    case EducationList => EducationEntries(d.education)
  }

  /** Two drafts that agree on every key are the same draft. */
  lemma Extensionality(d1: Profile, d2: Profile)
    requires forall k :: Get(d1, k) == Get(d2, k)
    ensures d1 == d2
  {
    assert d1.fullName == d2.fullName by { assert Get(d1, FullName) == Get(d2, FullName); }
    assert d1.position == d2.position by { assert Get(d1, Position) == Get(d2, Position); }
    assert d1.organization == d2.organization by { assert Get(d1, Organization) == Get(d2, Organization); }
    assert d1.bio == d2.bio by { assert Get(d1, Bio) == Get(d2, Bio); }
    assert d1.profilePicture == d2.profilePicture by { assert Get(d1, ProfilePicture) == Get(d2, ProfilePicture); }
    assert d1.phone == d2.phone by { assert Get(d1, Phone) == Get(d2, Phone); }
    assert d1.email == d2.email by { assert Get(d1, Email) == Get(d2, Email); }
    assert d1.whatsapp == d2.whatsapp by { assert Get(d1, Whatsapp) == Get(d2, Whatsapp); }
    assert d1.telegram == d2.telegram by { assert Get(d1, Telegram) == Get(d2, Telegram); }
    assert d1.linkedin == d2.linkedin by { assert Get(d1, Linkedin) == Get(d2, Linkedin); }
    assert d1.tiktok == d2.tiktok by { assert Get(d1, Tiktok) == Get(d2, Tiktok); }
    assert d1.twitter == d2.twitter by { assert Get(d1, Twitter) == Get(d2, Twitter); }
    assert d1.facebook == d2.facebook by { assert Get(d1, Facebook) == Get(d2, Facebook); }
    assert d1.youtube == d2.youtube by { assert Get(d1, Youtube) == Get(d2, Youtube); }
    assert d1.website == d2.website by { assert Get(d1, Website) == Get(d2, Website); }
    assert d1.skills == d2.skills by { assert Get(d1, Skills) == Get(d2, Skills); }
    assert d1.interests == d2.interests by { assert Get(d1, Interests) == Get(d2, Interests); }
    assert d1.experiences == d2.experiences by { assert Get(d1, Experiences) == Get(d2, Experiences); }
    assert d1.education == d2.education by { assert Get(d1, EducationList) == Get(d2, EducationList); }
  }

  /** The draft the wizard starts from: every string empty, no picture, every list empty. */
  function Initial(): (d: Profile)
    ensures forall k :: k !in ListKeys && k != ProfilePicture ==> Get(d, k) == Str("")
    ensures Get(d, ProfilePicture) == Picture(None)
    ensures Get(d, Skills) == TextList([]) && Get(d, Interests) == TextList([])
    ensures Get(d, Experiences) == ExperienceList([]) && Get(d, EducationList) == EducationEntries([])
  {
    Profile("", "", "", "", None, "", "", "", "", "", "", "", "", "", "", [], [], [], [])
  }

  /**
   * `Partial<typeof formData>`: for each key, either a new value or nothing.
   * A `Some` field is a key the patch names.
   */
  datatype Patch = Patch(
    fullName: Option<string>, position: Option<string>, organization: Option<string>, bio: Option<string>,
    profilePicture: Option<Option<File>>,
    phone: Option<string>, email: Option<string>, whatsapp: Option<string>, telegram: Option<string>,
    linkedin: Option<string>, tiktok: Option<string>, twitter: Option<string>,
    facebook: Option<string>, youtube: Option<string>, website: Option<string>,
    skills: Option<seq<string>>, interests: Option<seq<string>>,
    experiences: Option<seq<Experience>>, education: Option<seq<Education>>)

  /** `{}`: the patch that names no key. */
  const EmptyPatch: Patch := Patch(
    None, None, None, None, None, None, None, None, None, None,
    None, None, None, None, None, None, None, None, None)

  /** `patch[k]`: the value the patch gives key `k`, if it names it. */
  function PatchGet(p: Patch, k: Key): Option<Value> {
    match k
    case FullName => if p.fullName.Some? then Some(Str(p.fullName.value)) else None
    case Position => if p.position.Some? then Some(Str(p.position.value)) else None
    case Organization => if p.organization.Some? then Some(Str(p.organization.value)) else None
    case Bio => if p.bio.Some? then Some(Str(p.bio.value)) else None
    case ProfilePicture => if p.profilePicture.Some? then Some(Picture(p.profilePicture.value)) else None
    case Phone => if p.phone.Some? then Some(Str(p.phone.value)) else None
    case Email => if p.email.Some? then Some(Str(p.email.value)) else None
    case Whatsapp => if p.whatsapp.Some? then Some(Str(p.whatsapp.value)) else None
    case Telegram => if p.telegram.Some? then Some(Str(p.telegram.value)) else None
    case Linkedin => if p.linkedin.Some? then Some(Str(p.linkedin.value)) else None
    case Tiktok => if p.tiktok.Some? then Some(Str(p.tiktok.value)) else None
    case Twitter => if p.twitter.Some? then Some(Str(p.twitter.value)) else None
    case Facebook => if p.facebook.Some? then Some(Str(p.facebook.value)) else None
    case Youtube => if p.youtube.Some? then Some(Str(p.youtube.value)) else None
    case Website => if p.website.Some? then Some(Str(p.website.value)) else None
    case Skills => if p.skills.Some? then Some(TextList(p.skills.value)) else None
    case Interests => if p.interests.Some? then Some(TextList(p.interests.value)) else None
    case Experiences => if p.experiences.Some? then Some(ExperienceList(p.experiences.value)) else None
    case EducationList => if p.education.Some? then Some(EducationEntries(p.education.value)) else None
  }

  /** The keys a patch names. */
  function Names(p: Patch): (ks: set<Key>)
    ensures forall k :: k in ks <==> PatchGet(p, k).Some?
  {
    set k | k in AllKeys && PatchGet(p, k).Some?
  }

  /**
   * `{ ...d, ...p }`: every key the patch names takes the patch's value, whole
   * (a list is replaced, never spliced); every other key keeps the draft's value.
   */
  function Merge(d: Profile, p: Patch): (r: Profile)
  {
    Profile(
      p.fullName.GetOr(d.fullName), p.position.GetOr(d.position),
      p.organization.GetOr(d.organization), p.bio.GetOr(d.bio),
      p.profilePicture.GetOr(d.profilePicture),
      p.phone.GetOr(d.phone), p.email.GetOr(d.email),
      p.whatsapp.GetOr(d.whatsapp), p.telegram.GetOr(d.telegram),
      p.linkedin.GetOr(d.linkedin), p.tiktok.GetOr(d.tiktok), p.twitter.GetOr(d.twitter),
      p.facebook.GetOr(d.facebook), p.youtube.GetOr(d.youtube), p.website.GetOr(d.website),
      p.skills.GetOr(d.skills), p.interests.GetOr(d.interests),
      p.experiences.GetOr(d.experiences), p.education.GetOr(d.education))
  }

  /** Key by key: a named key reads the patch's value, an unnamed key reads the draft's. */
  lemma MergeKeywise(d: Profile, p: Patch, k: Key)
    ensures k in Names(p) ==> Some(Get(Merge(d, p), k)) == PatchGet(p, k)
    ensures k !in Names(p) ==> Get(Merge(d, p), k) == Get(d, k)
  {
    match k
    case FullName =>
    case Position =>
    case Organization =>
    case Bio =>
    case ProfilePicture =>
    case Phone =>
    case Email =>
    case Whatsapp =>
    case Telegram =>
    case Linkedin =>
    case Tiktok =>
    case Twitter =>
    case Facebook =>
    case Youtube =>
    case Website =>
    case Skills =>
    case Interests =>
    case Experiences =>
    case EducationList =>
  }

  /** The merge leaves every key the patch does not name untouched. */
  lemma MergeFrame(d: Profile, p: Patch)
    ensures forall k :: k !in Names(p) ==> Get(Merge(d, p), k) == Get(d, k)
    ensures forall k :: k in Names(p) ==> Some(Get(Merge(d, p), k)) == PatchGet(p, k)
  {
    forall k
      ensures k !in Names(p) ==> Get(Merge(d, p), k) == Get(d, k)
      ensures k in Names(p) ==> Some(Get(Merge(d, p), k)) == PatchGet(p, k)
    {
      MergeKeywise(d, p, k);
    }
  }

  /** Merging the empty patch changes nothing. */
  lemma MergeEmpty(d: Profile)
    ensures Names(EmptyPatch) == {}
    ensures Merge(d, EmptyPatch) == d
  {
    MergeFrame(d, EmptyPatch);
    Extensionality(Merge(d, EmptyPatch), d);
  }

  /** Applying the same patch twice is applying it once. */
  lemma MergeIdempotent(d: Profile, p: Patch)
    ensures Merge(Merge(d, p), p) == Merge(d, p)
  {
    var once := Merge(d, p);
    MergeFrame(d, p);
    MergeFrame(once, p);
    Extensionality(Merge(once, p), once);
  }
}
