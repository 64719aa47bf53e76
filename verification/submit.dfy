/**
 * `handleSubmit` of the profile creator. The backend calls (picture upload,
 * public URL lookup, current user lookup, row insert) are not modelled: their
 * results are the fields of an `Env`, and what the wizard asks of them is
 * recorded, in order, as a trace of `Effect`s.
 */
module Submit {
  import opened Base
  import opened Draft
  import opened Text
  import opened Wizard

  /** The columns of the `profiles` table the wizard fills, named as in the store. */
  datatype Column =
    | user_id | full_name | position | organization | bio | profile_picture_url
    | phone | email | whatsapp | telegram
    | linkedin | tiktok | twitter | facebook | youtube | website
    | skills | interests | experiences | education

  const AllColumns: set<Column> := {
    user_id, full_name, position, organization, bio, profile_picture_url,
    phone, email, whatsapp, telegram,
    linkedin, tiktok, twitter, facebook, youtube, website,
    skills, interests, experiences, education }

  /** `AllColumns` lists every column of the insert. */
  lemma AllColumnsComplete()
    ensures forall c: Column :: c in AllColumns
  {
    forall c: Column
      ensures c in AllColumns
    {
      match c
      case user_id =>
      case full_name =>
      case position =>
      case organization =>
      case bio =>
      case profile_picture_url =>
      case phone =>
      case email =>
      case whatsapp =>
      case telegram =>
      case linkedin =>
      case tiktok =>
      case twitter =>
      case facebook =>
      case youtube =>
      case website =>
      case skills =>
      case interests =>
      case experiences =>
      case education =>
    }
  }

  /** The column each draft key ends up in; the picture's column receives its public URL. */
  function ColumnOf(k: Key): Column {
    match k
    case FullName => full_name
    case Position => position
    case Organization => organization
    case Bio => bio
    case ProfilePicture => profile_picture_url
    case Phone => phone
    case Email => email
    case Whatsapp => whatsapp
    case Telegram => telegram
    case Linkedin => linkedin
    case Tiktok => tiktok
    case Twitter => twitter
    case Facebook => facebook
    case Youtube => youtube
    case Website => website
    case Skills => skills
    case Interests => interests
    case Experiences => experiences
    case EducationList => education
  }

  /** Distinct draft keys land in distinct columns, none of them `user_id`. */
  lemma ColumnOfInjective(k1: Key, k2: Key)
    ensures ColumnOf(k1) == ColumnOf(k2) ==> k1 == k2
    ensures ColumnOf(k1) != user_id
  {
  }

  /** Every column except `user_id` is fed by exactly one draft key. */
  lemma ColumnOfCovers(c: Column)
    ensures c != user_id ==> exists k :: ColumnOf(k) == c
  {
    match c
    case user_id =>
    case full_name => assert ColumnOf(FullName) == c;
    case position => assert ColumnOf(Position) == c;
    case organization => assert ColumnOf(Organization) == c;
    case bio => assert ColumnOf(Bio) == c;
    case profile_picture_url => assert ColumnOf(ProfilePicture) == c;
    case phone => assert ColumnOf(Phone) == c;
    case email => assert ColumnOf(Email) == c;
    case whatsapp => assert ColumnOf(Whatsapp) == c;
    case telegram => assert ColumnOf(Telegram) == c;
    case linkedin => assert ColumnOf(Linkedin) == c;
    case tiktok => assert ColumnOf(Tiktok) == c;
    case twitter => assert ColumnOf(Twitter) == c;
    case facebook => assert ColumnOf(Facebook) == c;
    case youtube => assert ColumnOf(Youtube) == c;
    case website => assert ColumnOf(Website) == c;
    case skills => assert ColumnOf(Skills) == c;
    case interests => assert ColumnOf(Interests) == c;
    case experiences => assert ColumnOf(Experiences) == c;
    case education => assert ColumnOf(EducationList) == c;
  }

  /** The object handed to `insert`: column name to value. */
  type Row = map<Column, Value>

  /** The value the wizard puts in column `c`, written in the order of the insert call. */
  function Cell(d: Profile, pictureUrl: string, userId: Option<string>, c: Column): Value {
    match c
    case user_id => if userId.Some? then Str(userId.value) else Undefined
    case full_name => Str(d.fullName)
    case position => Str(d.position)
    case organization => Str(d.organization)
    case bio => Str(d.bio)
    case profile_picture_url => Str(pictureUrl)
    case phone => Str(d.phone)
    case email => Str(d.email)
    case whatsapp => Str(d.whatsapp)
    case telegram => Str(d.telegram)
    case linkedin => Str(d.linkedin)
    case tiktok => Str(d.tiktok)
    case twitter => Str(d.twitter)
    case facebook => Str(d.facebook)
    case youtube => Str(d.youtube)
    case website => Str(d.website)
    case skills => TextList(d.skills)
    case interests => TextList(d.interests)
    case experiences => ExperienceList(d.experiences)
    case education => EducationEntries(d.education)
  }

  /** The record assembled from the draft, the picture's public URL and the user id (`undefined` when absent). */
  function BuildRow(d: Profile, pictureUrl: string, userId: Option<string>): (row: Row)
    ensures row.Keys == AllColumns
  {
    map c | c in AllColumns :: Cell(d, pictureUrl, userId, c)
  }

  /** Looking up a column of the built row gives that column's cell. */
  lemma RowLookup(d: Profile, pictureUrl: string, userId: Option<string>, c: Column)
    ensures c in BuildRow(d, pictureUrl, userId)
    ensures BuildRow(d, pictureUrl, userId)[c] == Cell(d, pictureUrl, userId, c)
  {
  }

  /** One draft key's column holds exactly that key's draft value (the picture aside). */
  lemma RowCopiesKey(d: Profile, pictureUrl: string, userId: Option<string>, k: Key)
    requires k != ProfilePicture
    ensures BuildRow(d, pictureUrl, userId)[ColumnOf(k)] == Get(d, k)
  {
    RowLookup(d, pictureUrl, userId, ColumnOf(k));
    match k
    case FullName =>
    case Position =>
    case Organization =>
    case Bio =>
    case Phone =>
    case Email =>
    case Whatsapp =>
    case Telegram =>
    case Linkedin =>
    case Tiktok =>
    case Twitter =>
    case Facebook =>
    case Youtube =>
    case Website =>
    case Skills =>
    case Interests =>
    case Experiences =>
    case EducationList =>
  }

  /**
   * The field mapping: every column copies its draft field one to one, the
   * picture column holds the URL (`""` when there was no picture) and
   * `user_id` holds the user's id or `undefined`.
   */
  lemma RowCopiesDraft(d: Profile, pictureUrl: string, userId: Option<string>)
    ensures var row := BuildRow(d, pictureUrl, userId);
            && (forall k :: k != ProfilePicture ==> row[ColumnOf(k)] == Get(d, k))
            && row[profile_picture_url] == Str(pictureUrl)
            && row[user_id] == (if userId.Some? then Str(userId.value) else Undefined)
  {
    forall k | k != ProfilePicture
      ensures BuildRow(d, pictureUrl, userId)[ColumnOf(k)] == Get(d, k)
    {
      RowCopiesKey(d, pictureUrl, userId, k);
    }
    RowLookup(d, pictureUrl, userId, profile_picture_url);
    RowLookup(d, pictureUrl, userId, user_id);
  }

  /**
   * What the backend answers, fixed in advance: the generated UUID, whether the
   * upload reports an error, the public URL for a stored name, the signed-in
   * user's id (if any) and whether the insert reports an error.
   */
  datatype Env = Env(uuid: string, uploadFails: bool, publicUrlOf: string -> string,
                     userId: Option<string>, insertFails: bool)

  datatype Notice = SuccessNotice | ErrorNotice

  /** One request the wizard makes of its surroundings. */
  datatype Effect =
    | Upload(fileName: string, file: File)
    | GetPublicUrl(fileName: string)
    | GetUser
    | Insert(row: Row)
    | LogError
    | Toast(notice: Notice)
    | Navigate(path: string)

  datatype Outcome = Created | UploadFailed | InsertFailed

  /** Where the user is afterwards: still in the wizard with this state, or on another page. */
  datatype After = Stays(wizard: State) | Left(path: string)

  datatype Report = Report(effects: seq<Effect>, outcome: Outcome, after: After)

  const DashboardPath: string := "/dashboard"

  /** The number of inserts in a trace. */
  function Inserts(es: seq<Effect>): nat
    decreases |es|
  {
    if |es| == 0 then 0 else (if es[0].Insert? then 1 else 0) + Inserts(es[1..])
  }

  /** The number of uploads in a trace. */
  function Uploads(es: seq<Effect>): nat
    decreases |es|
  {
    if |es| == 0 then 0 else (if es[0].Upload? then 1 else 0) + Uploads(es[1..])
  }

  lemma CountsCons(e: Effect, es: seq<Effect>)
    ensures Inserts([e] + es) == (if e.Insert? then 1 else 0) + Inserts(es)
    ensures Uploads([e] + es) == (if e.Upload? then 1 else 0) + Uploads(es)
  {
    assert ([e] + es)[1..] == es;
  }

  /** The URL stored for the draft's picture: `""` without one, else the public URL of `<uuid>.<ext>`. */
  function PictureUrl(d: Profile, env: Env): string {
    if d.profilePicture.Some? then env.publicUrlOf(StoredName(env.uuid, d.profilePicture.value.name)) else ""
  }

  /**
   * The requests that end a submit: on error the logged error and then the
   * error notice, else the success notice and then the move to the dashboard.
   * Neither ending inserts or uploads anything.
   */
  function Ending(failed: bool): (es: seq<Effect>)
    ensures |es| == 2 && Inserts(es) == 0 && Uploads(es) == 0
    ensures es[0] == (if failed then LogError else Toast(SuccessNotice))
    ensures es[1] == (if failed then Toast(ErrorNotice) else Navigate(DashboardPath))
  {
    var es := if failed then [LogError, Toast(ErrorNotice)] else [Toast(SuccessNotice), Navigate(DashboardPath)];
    CountsCons(es[0], [es[1]]);
    CountsCons(es[1], []);
    assert es == [es[0]] + [es[1]];
    es
  }

  /** What happens once the insert has been tried: on error log and show the error notice, else confirm and leave. */
  function Finish(w: State, insertFails: bool): (r: Report)
    ensures Inserts(r.effects) == 0 && Uploads(r.effects) == 0
    ensures |r.effects| == 2 && !r.effects[0].Insert? && !r.effects[1].Insert?
    ensures r.outcome == (if insertFails then InsertFailed else Created)
    ensures insertFails ==> r.after == Stays(w) && r.effects == [LogError, Toast(ErrorNotice)]
    ensures !insertFails ==> r.after == Left(DashboardPath) && r.effects == [Toast(SuccessNotice), Navigate(DashboardPath)]
    ensures r.effects == Ending(insertFails)
  {
    var tail := Ending(insertFails);
    if insertFails then Report(tail, InsertFailed, Stays(w)) else Report(tail, Created, Left(DashboardPath))
  }

  /** Looks up the user, then inserts the row built from the draft and the picture URL. */
  function InsertRow(w: State, env: Env, pictureUrl: string): (r: Report)
    ensures Inserts(r.effects) == 1 && Uploads(r.effects) == 0
    ensures r.outcome == (if env.insertFails then InsertFailed else Created)
    ensures |r.effects| == 4 && r.effects[0] == GetUser
    ensures r.effects[1] == Insert(BuildRow(w.draft, pictureUrl, env.userId))
    ensures r.effects[2..] == Finish(w, env.insertFails).effects
    ensures forall i :: 0 <= i < 4 && r.effects[i].Insert? ==> r.effects[i].row == BuildRow(w.draft, pictureUrl, env.userId)
    ensures env.insertFails ==> r.after == Stays(w) && r.effects[2] == LogError && r.effects[3] == Toast(ErrorNotice)
    ensures !env.insertFails ==> r.after == Left(DashboardPath) && r.effects[3] == Navigate(DashboardPath)
  {
    var row := BuildRow(w.draft, pictureUrl, env.userId);
    var fin := Finish(w, env.insertFails);
    CountsCons(Insert(row), fin.effects);
    CountsCons(GetUser, [Insert(row)] + fin.effects);
    fin.(effects := [GetUser] + ([Insert(row)] + fin.effects))
  }

  /** Uploads the picture under `<uuid>.<ext>`; on success looks up its public URL and inserts. */
  function UploadThenInsert(w: State, env: Env, file: File): (r: Report)
    ensures |r.effects| > 0 && r.effects[0] == Upload(StoredName(env.uuid, file.name), file)
    ensures Uploads(r.effects) == 1
    ensures Inserts(r.effects) == (if env.uploadFails then 0 else 1)
    ensures r.outcome == (if env.uploadFails then UploadFailed else if env.insertFails then InsertFailed else Created)
    ensures forall i :: 0 <= i < |r.effects| && r.effects[i].Insert? ==>
              r.effects[i].row == BuildRow(w.draft, env.publicUrlOf(StoredName(env.uuid, file.name)), env.userId)
    ensures r.outcome == Created ==> r.after == Left(DashboardPath) && r.effects[|r.effects| - 1] == Navigate(DashboardPath)
    ensures r.outcome != Created ==> r.after == Stays(w) && r.effects[|r.effects| - 1] == Toast(ErrorNotice)
    ensures r.outcome != Created ==> forall i :: 0 <= i < |r.effects| ==> !r.effects[i].Navigate?
  {
    var fileName := StoredName(env.uuid, file.name);
    if env.uploadFails then UploadFailure(w, Upload(fileName, file))
    else AfterUpload(w, env, Upload(fileName, file))
  }

  /** The upload reported an error: nothing more is asked of the backend. */
  function UploadFailure(w: State, upload: Effect): (r: Report)
    requires upload.Upload?
    ensures r.effects == [upload] + Finish(w, true).effects
    ensures Uploads(r.effects) == 1 && Inserts(r.effects) == 0
    ensures r.outcome == UploadFailed && r.after == Stays(w)
    ensures r.effects[|r.effects| - 1] == Toast(ErrorNotice)
    ensures forall i :: 0 <= i < |r.effects| ==> !r.effects[i].Navigate?
  {
    var tail := Finish(w, true).effects;
    CountsCons(Toast(ErrorNotice), []);
    CountsCons(LogError, [Toast(ErrorNotice)]);
    CountsCons(upload, tail);
    Report([upload] + tail, UploadFailed, Stays(w))
  }

  /** The upload went through: look up the public URL of the stored name, then insert. */
  function AfterUpload(w: State, env: Env, upload: Effect): (r: Report)
    requires upload.Upload?
    ensures |r.effects| > 0 && r.effects[0] == upload
    ensures Uploads(r.effects) == 1 && Inserts(r.effects) == 1
    ensures r.outcome == (if env.insertFails then InsertFailed else Created)
    ensures forall i :: 0 <= i < |r.effects| && r.effects[i].Insert? ==>
              r.effects[i].row == BuildRow(w.draft, env.publicUrlOf(upload.fileName), env.userId)
    ensures r.outcome == Created ==> r.after == Left(DashboardPath) && r.effects[|r.effects| - 1] == Navigate(DashboardPath)
    ensures r.outcome != Created ==> r.after == Stays(w) && r.effects[|r.effects| - 1] == Toast(ErrorNotice)
    ensures r.outcome != Created ==> forall i :: 0 <= i < |r.effects| ==> !r.effects[i].Navigate?
  {
    var rest := InsertRow(w, env, env.publicUrlOf(upload.fileName));
    var effects := [upload] + ([GetPublicUrl(upload.fileName)] + rest.effects);
    CountsCons(GetPublicUrl(upload.fileName), rest.effects);
    CountsCons(upload, [GetPublicUrl(upload.fileName)] + rest.effects);
    assert effects[0] == upload && effects[1] == GetPublicUrl(upload.fileName) && effects[2..] == rest.effects;
    rest.(effects := effects)
  }

  /**
   * `handleSubmit`: upload the picture if there is one (giving up on an upload
   * error), then insert the assembled row. The wizard's own state is never
   * written: on failure the user is left exactly where they were, and may retry.
   */
  function HandleSubmit(w: State, env: Env): (r: Report)
    ensures r.outcome == UploadFailed <==> w.draft.profilePicture.Some? && env.uploadFails
    ensures r.outcome == Created <==> !(w.draft.profilePicture.Some? && env.uploadFails) && !env.insertFails
    ensures Uploads(r.effects) == (if w.draft.profilePicture.Some? then 1 else 0)
    ensures Inserts(r.effects) == (if r.outcome == UploadFailed then 0 else 1)
    ensures w.draft.profilePicture.Some? ==>
              r.effects[0] == Upload(StoredName(env.uuid, w.draft.profilePicture.value.name), w.draft.profilePicture.value)
    ensures forall i :: 0 <= i < |r.effects| && r.effects[i].Insert? ==>
              r.effects[i].row == BuildRow(w.draft, PictureUrl(w.draft, env), env.userId)
    ensures r.outcome == Created ==> r.after == Left(DashboardPath) && r.effects[|r.effects| - 1] == Navigate(DashboardPath)
    ensures r.outcome != Created ==> r.after == Stays(w) && r.effects[|r.effects| - 1] == Toast(ErrorNotice)
    ensures r.outcome != Created ==> forall i :: 0 <= i < |r.effects| ==> !r.effects[i].Navigate?
    ensures |r.effects| >= 3
    ensures r.outcome == Created ==> r.effects[|r.effects| - 2..] == [Toast(SuccessNotice), Navigate(DashboardPath)]
    ensures r.outcome != Created ==> r.effects[|r.effects| - 2..] == [LogError, Toast(ErrorNotice)]
  {
    if w.draft.profilePicture.Some? then UploadThenInsert(w, env, w.draft.profilePicture.value)
    else InsertRow(w, env, "")
  }

  /**
   * A failed submit leaves nothing to re-enter: submitting again from where the
   * user was left behaves exactly as submitting the original state would.
   */
  lemma RetryAfterFailure(w: State, first: Env, second: Env)
    requires HandleSubmit(w, first).outcome != Created
    ensures HandleSubmit(w, first).after.Stays?
    ensures HandleSubmit(HandleSubmit(w, first).after.wizard, second) == HandleSubmit(w, second)
  {
  }

  /** The user lookup, the insert and the ending, as one sequence. */
  lemma InsertRowTrace(w: State, env: Env, pictureUrl: string)
    ensures InsertRow(w, env, pictureUrl).effects
            == [GetUser, Insert(BuildRow(w.draft, pictureUrl, env.userId))] + Ending(env.insertFails)
  {
    var es := InsertRow(w, env, pictureUrl).effects;
    assert Finish(w, env.insertFails).effects == Ending(env.insertFails);
    assert es == es[..2] + es[2..];
  }

  /** Without a picture: the user lookup, the insert with an empty URL, and the ending. */
  lemma TraceWithoutPicture(w: State, env: Env)
    requires w.draft.profilePicture.None?
    ensures HandleSubmit(w, env).effects == [GetUser, Insert(BuildRow(w.draft, "", env.userId))] + Ending(env.insertFails)
  {
    InsertRowTrace(w, env, "");
  }

  /** A picture whose upload fails: the upload, then the error ending. */
  lemma TraceUploadFails(w: State, env: Env, f: File)
    requires w.draft.profilePicture == Some(f) && env.uploadFails
    ensures HandleSubmit(w, env).effects == [Upload(StoredName(env.uuid, f.name), f)] + Ending(true)
  {
    assert HandleSubmit(w, env) == UploadFailure(w, Upload(StoredName(env.uuid, f.name), f));
    assert Finish(w, true).effects == Ending(true);
  }

  /** A picture uploaded: the upload, the URL lookup, the user lookup, the insert with that URL, and the ending. */
  lemma TraceUploaded(w: State, env: Env, f: File)
    requires w.draft.profilePicture == Some(f) && !env.uploadFails
    ensures var name := StoredName(env.uuid, f.name);
            HandleSubmit(w, env).effects
            == [Upload(name, f), GetPublicUrl(name), GetUser, Insert(BuildRow(w.draft, env.publicUrlOf(name), env.userId))]
               + Ending(env.insertFails)
  {
    var name := StoredName(env.uuid, f.name);
    var url := env.publicUrlOf(name);
    assert HandleSubmit(w, env) == AfterUpload(w, env, Upload(name, f));
    InsertRowTrace(w, env, url);
    assert AfterUpload(w, env, Upload(name, f)).effects
           == [Upload(name, f)] + ([GetPublicUrl(name)] + InsertRow(w, env, url).effects);
  }

  /**
   * The whole trace of a submit, request by request: the upload, the public-URL
   * lookup, the user lookup and the insert, each only when the ones before it
   * succeeded, then either the success toast and navigation or the logged error
   * and the error toast.
   */
  lemma SubmitTrace(w: State, env: Env)
    ensures match w.draft.profilePicture
            case None =>
              HandleSubmit(w, env).effects == [GetUser, Insert(BuildRow(w.draft, "", env.userId))] + Ending(env.insertFails)
            case Some(f) =>
              var name := StoredName(env.uuid, f.name);
              if env.uploadFails then HandleSubmit(w, env).effects == [Upload(name, f)] + Ending(true)
              else HandleSubmit(w, env).effects
                   == [Upload(name, f), GetPublicUrl(name), GetUser, Insert(BuildRow(w.draft, env.publicUrlOf(name), env.userId))]
                      + Ending(env.insertFails)
  {
    match w.draft.profilePicture
    case None => TraceWithoutPicture(w, env);
    case Some(f) =>
      if env.uploadFails {
        TraceUploadFails(w, env, f);
      } else {
        TraceUploaded(w, env, f);
      }
  }

  /** With no picture there is no upload, and the stored picture URL is `""`. */
  lemma NoPictureNoUpload(w: State, env: Env)
    requires w.draft.profilePicture.None?
    ensures HandleSubmit(w, env).outcome != UploadFailed
    ensures HandleSubmit(w, env).effects[..2] == [GetUser, Insert(BuildRow(w.draft, "", env.userId))]
    ensures BuildRow(w.draft, "", env.userId)[profile_picture_url] == Str("")
  {
  }
}
