# Profile creation wizard — a Dafny model

This project models the profile-creation wizard of the Bizel Connect web app.
The wizard has a fixed sequence of four steps: personal details, contact
information, social links and professional details. Its controller keeps the
current step and a draft profile, and offers three navigation buttons: Next,
Back and Skip. Every step view edits the draft through one shallow-merge
callback. On the last step, submit does three things:

- it uploads the profile picture, if there is one, under a fresh `<uuid>.<ext>` name;
- it inserts one row into the `profiles` table;
- it either confirms and moves to the dashboard, or reports an error and leaves
  the wizard as it was.

The professional-details step edits four lists of the wizard's draft: skills,
interests, experience entries and education entries. Each add, update and remove
handler sends the wizard at most one patch, which replaces exactly one of the four
lists in the draft; adding a blank skill or interest sends none.

Modules, one per file:

- `Base` (`base.dfy`): `Option`.
- `Lists` (`lists.dfy`): appending, and deleting position `i` with the same
  semantics as `filter((_, j) => j !== i)`.
- `Text` (`text.dfy`): the JavaScript `trim` with the full ECMAScript
  white-space set, and `split('.').pop()` for file extensions.
- `Draft` (`draft.dfy`): the draft record, its keys, and the patch merge
  `{ ...prev, ...patch }`.
- `Wizard` (`wizard.dfy`): the step counter, navigation, and `updateFormData`.
- `Professional` (`professional.dfy`): the list handlers of the
  professional-details step.
- `Submit` (`submit.dfy`): `handleSubmit`. Its backend calls are modelled as
  an environment of answers plus a trace of the requests made.

## Model

| member | source | states |
|---|---|---|
| Draft.Initial | src/components/ProfileWizard/ProfileCreator.tsx:19-56 | the wizard starts with every text field empty, no picture, and all four lists empty |
| Wizard.Start | src/components/ProfileWizard/ProfileCreator.tsx:13-19 | the mounted wizard is on step 1 of 4 with the empty draft |
| Wizard.Next | src/components/ProfileWizard/ProfileCreator.tsx:58-62 | Next advances by exactly one step unless already at step 4, where it stays; it never changes the draft and keeps the step within 1..4 |
| Wizard.Back | src/components/ProfileWizard/ProfileCreator.tsx:64-68 | Back goes back exactly one step unless already at step 1, where it stays; it never changes the draft and keeps the step within 1..4 |
| Wizard.NextBackSaturate | src/components/ProfileWizard/ProfileCreator.tsx:58-68 | from a valid step, Next lands on min(step+1, 4) and Back on max(step-1, 1) |
| Wizard.NextBackInverse | src/components/ProfileWizard/ProfileCreator.tsx:58-68 | Back undoes Next below the last step, and Next undoes Back above the first |
| Wizard.RunKeepsValid | src/components/ProfileWizard/ProfileCreator.tsx:13-72 | any sequence of Next/Back/Skip presses keeps the step in 1..4 |
| Wizard.RunKeepsDraft | src/components/ProfileWizard/ProfileCreator.tsx:58-72 | navigation alone never changes the draft |
| Wizard.SkipIsNext | src/components/ProfileWizard/ProfileCreator.tsx:70-72 | replacing every Skip press by a Next press changes no outcome of any press sequence: Skip is Next |
| Wizard.NextsSaturate | src/components/ProfileWizard/ProfileCreator.tsx:58-62 | n Next presses from a valid step reach min(step+n, 4) |
| Wizard.BacksSaturate | src/components/ProfileWizard/ProfileCreator.tsx:64-68 | n Back presses from a valid step reach max(step-n, 1) |
| Wizard.ThreeNextsThenBack | src/components/ProfileWizard/ProfileCreator.tsx:13-68 | from the start, three Nexts reach step 4 and a Back then gives step 3 with the draft still empty |
| Wizard.UpdateFormData | src/components/ProfileWizard/ProfileCreator.tsx:137-139 | every key the patch names takes the patch's value, every other key keeps its value, and the step is untouched |
| Draft.AllKeysComplete | src/components/ProfileWizard/ProfileCreator.tsx:19-56 | every key of the draft record is among the keys the model iterates over |
| Draft.MergeFrame | src/components/ProfileWizard/ProfileCreator.tsx:137-139 | the spread merge replaces named keys whole and leaves unnamed keys alone |
| Draft.MergeEmpty | src/components/ProfileWizard/ProfileCreator.tsx:137-139 | merging `{}` changes nothing |
| Draft.MergeIdempotent | src/components/ProfileWizard/ProfileCreator.tsx:137-139 | merging the same patch twice equals merging it once |
| Draft.Extensionality | src/components/ProfileWizard/ProfileCreator.tsx:19-56 | two drafts that agree on every key are equal, so the keys cover the whole record |
| Text.LeadingSpaces | src/components/ProfileWizard/steps/ProfessionalDetails.tsx:33 | counts the maximal white-space prefix: all of it is white space, and the next character is not |
| Text.TrailingSpaces | src/components/ProfileWizard/steps/ProfessionalDetails.tsx:33 | counts the maximal white-space suffix: all of it is white space, and the character before it is not |
| Text.Trim | src/components/ProfileWizard/steps/ProfessionalDetails.tsx:33-34 | `trim()` gives the slice after the leading white space, followed only by white space, and neither starting nor ending with white space |
| Text.AllSpaceSplit | src/components/ProfileWizard/steps/ProfessionalDetails.tsx:33 | a string made of two white-space pieces is white space |
| Text.TrimEmptyIffAllSpace | src/components/ProfileWizard/steps/ProfessionalDetails.tsx:33 | the `if (newSkill.trim())` guard fails exactly when the input is empty or only white space |
| Text.TrimIdempotent | src/components/ProfileWizard/steps/ProfessionalDetails.tsx:33-34 | trimming an already trimmed string changes nothing |
| Text.Split | src/components/ProfileWizard/ProfileCreator.tsx:80 | `split('.')` gives at least one part, no part contains `.`, and joining the parts with `.` restores the name |
| Text.JoinEndsWithLast | src/components/ProfileWizard/ProfileCreator.tsx:80 | the last part is a suffix of the joined string, directly preceded by `.` when there are several parts |
| Text.ExtensionLength | src/components/ProfileWizard/ProfileCreator.tsx:80 | any extension of a name is as long as its longest dot-free suffix |
| Text.ExtensionUnique | src/components/ProfileWizard/ProfileCreator.tsx:80 | a name has at most one extension |
| Text.Extension | src/components/ProfileWizard/ProfileCreator.tsx:80 | `split('.').pop()` is the dot-free suffix that is the whole name or follows the last `.` |
| Text.StoredName | src/components/ProfileWizard/ProfileCreator.tsx:81 | the stored name is the uuid, a `.`, then the extension |
| Text.StoredNameKeepsExtension | src/components/ProfileWizard/ProfileCreator.tsx:80-81 | the stored name `<uuid>.<ext>` has the uploaded file's extension, whatever the uuid |
| Lists.KeepOthers | src/components/ProfileWizard/steps/ProfessionalDetails.tsx:41 | filtering by position (counted from an offset) drops exactly the position `i` when it falls inside, and nothing otherwise |
| Lists.RemoveAt | src/components/ProfileWizard/steps/ProfessionalDetails.tsx:39-43 | `filter((_, i) => i !== index)` deletes exactly position `index` and keeps the rest in order; an index outside the list deletes nothing |
| Lists.RemoveAtMultiset | src/components/ProfileWizard/steps/ProfessionalDetails.tsx:39-43 | the removal takes out exactly one occurrence of the removed element |
| Lists.Append | src/components/ProfileWizard/steps/ProfessionalDetails.tsx:34 | `[...s, x]` keeps the old elements in order and puts `x` last |
| Professional.AddTrimmed | src/components/ProfileWizard/steps/ProfessionalDetails.tsx:32-37 | blank input adds nothing; otherwise the old list is kept and the non-empty trimmed input is appended |
| Professional.AddSkill | src/components/ProfileWizard/steps/ProfessionalDetails.tsx:32-37 | blank input sends no patch and keeps the input; otherwise the patch names only `skills`, appends the trimmed text, and clears the input |
| Professional.RemoveSkill | src/components/ProfileWizard/steps/ProfessionalDetails.tsx:39-43 | the patch names only `skills` and holds the list with position `index` deleted |
| Professional.AddInterest | src/components/ProfileWizard/steps/ProfessionalDetails.tsx:45-50 | as for skills: blank input does nothing, otherwise only `interests` gets the trimmed text and the input is cleared |
| Professional.RemoveInterest | src/components/ProfileWizard/steps/ProfessionalDetails.tsx:52-56 | the patch names only `interests` and holds the list with position `index` deleted |
| Professional.AddExperience | src/components/ProfileWizard/steps/ProfessionalDetails.tsx:58-71 | the patch names only `experiences`: the old entries in order, then one entry with every field empty |
| Professional.UpdateExperience | src/components/ProfileWizard/steps/ProfessionalDetails.tsx:73-80 | entry `index` gets `value` in `field`; its other fields and all other entries are unchanged |
| Professional.RemoveExperience | src/components/ProfileWizard/steps/ProfessionalDetails.tsx:82-86 | the patch names only `experiences` and holds the list with entry `index` deleted |
| Professional.AddEducation | src/components/ProfileWizard/steps/ProfessionalDetails.tsx:88-99 | the patch names only `education`: the old entries in order, then one entry with every field empty |
| Professional.UpdateEducation | src/components/ProfileWizard/steps/ProfessionalDetails.tsx:101-108 | entry `index` gets `value` in `field`; its other fields and all other entries are unchanged |
| Professional.RemoveEducation | src/components/ProfileWizard/steps/ProfessionalDetails.tsx:110-114 | the patch names only `education` and holds the list with entry `index` deleted |
| Professional.ExperienceSet | src/components/ProfileWizard/steps/ProfessionalDetails.tsx:75-78 | `{ ...e, [field]: value }` changes that one field of the entry and keeps the others |
| Professional.EducationSet | src/components/ProfileWizard/steps/ProfessionalDetails.tsx:103-106 | `{ ...e, [field]: value }` changes that one field of the entry and keeps the others |
| Professional.NewExperience | src/components/ProfileWizard/steps/ProfessionalDetails.tsx:62-68 | the new experience entry has every field empty |
| Professional.NewEducation | src/components/ProfileWizard/steps/ProfessionalDetails.tsx:92-96 | the new education entry has every field empty |
| Professional.EmitNamesTarget | src/components/ProfileWizard/steps/ProfessionalDetails.tsx:32-114 | each handler's patch names exactly one list key, the one the handler is about |
| Professional.HandleFrame | src/components/ProfileWizard/steps/ProfessionalDetails.tsx:32-114 | after any handler is merged, every draft key other than its target list keeps its value |
| Professional.AddSkillLaw | src/components/ProfileWizard/steps/ProfessionalDetails.tsx:32-37 | after the merge, skills are the old skills followed by the trimmed input, and the input is cleared; blank input changes nothing at all |
| Professional.AddInterestLaw | src/components/ProfileWizard/steps/ProfessionalDetails.tsx:45-50 | after the merge, interests are the old interests followed by the trimmed input, and skills are untouched; blank input changes nothing at all |
| Professional.RemoveSkillLaw | src/components/ProfileWizard/steps/ProfessionalDetails.tsx:39-43 | after the merge, skills lose exactly position `index`, or nothing when the index is outside the list |
| Professional.RemoveInterestLaw | src/components/ProfileWizard/steps/ProfessionalDetails.tsx:52-56 | after the merge, interests lose exactly position `index`, and skills are untouched |
| Professional.RemoveExperienceLaw | src/components/ProfileWizard/steps/ProfessionalDetails.tsx:82-86 | after the merge, experiences lose exactly entry `index`, and the rest stay in order |
| Professional.RemoveEducationLaw | src/components/ProfileWizard/steps/ProfessionalDetails.tsx:110-114 | after the merge, education loses exactly entry `index`, and the rest stay in order |
| Professional.AddThenRemoveExperience | src/components/ProfileWizard/steps/ProfessionalDetails.tsx:58-86 | adding an entry and then removing the new last entry restores the experience list |
| Submit.ColumnOfInjective | src/components/ProfileWizard/ProfileCreator.tsx:96-117 | distinct draft keys go to distinct columns, and none of them goes to `user_id` |
| Submit.ColumnOfCovers | src/components/ProfileWizard/ProfileCreator.tsx:96-117 | every column except `user_id` is fed by a draft key |
| Submit.BuildRow | src/components/ProfileWizard/ProfileCreator.tsx:96-117 | the inserted object has exactly the twenty columns the insert call lists |
| Submit.AllColumnsComplete | src/components/ProfileWizard/ProfileCreator.tsx:96-117 | every column of the insert object is among the columns the row is built over |
| Submit.RowCopiesKey | src/components/ProfileWizard/ProfileCreator.tsx:98-116 | the column of each draft key, the picture aside, holds exactly that key's draft value |
| Submit.RowCopiesDraft | src/components/ProfileWizard/ProfileCreator.tsx:96-117 | the row copies every draft field to its column, stores the picture URL (`""` without a picture), and puts the user's id or `undefined` in `user_id` |
| Submit.Ending | src/components/ProfileWizard/ProfileCreator.tsx:119-134 | a submit ends with two requests and no insert or upload: on failure the logged error and then the error toast, otherwise the success toast and then navigation |
| Submit.Finish | src/components/ProfileWizard/ProfileCreator.tsx:119-134 | an insert error gives exactly the logged error and then the error toast, leaving the wizard as it was; otherwise exactly the success toast and then navigation to `/dashboard` |
| Submit.InsertRow | src/components/ProfileWizard/ProfileCreator.tsx:96-134 | the user lookup, then the insert of the row built from the draft, then exactly the trace of `Submit.Finish` for the insert's result |
| Submit.UploadFailure | src/components/ProfileWizard/ProfileCreator.tsx:83-87 | an upload error gives exactly the upload, the logged error and the error toast: no insert and no navigation |
| Submit.AfterUpload | src/components/ProfileWizard/ProfileCreator.tsx:89-134 | after a successful upload, the inserted row carries the public URL of the stored name |
| Submit.UploadThenInsert | src/components/ProfileWizard/ProfileCreator.tsx:79-134 | the first request uploads the file under `<uuid>.<ext>`; on success the row carries that object's public URL |
| Submit.HandleSubmit | src/components/ProfileWizard/ProfileCreator.tsx:74-135 | the submit flow: the upload fails exactly when there is a picture and its upload errors; creation succeeds exactly when neither upload nor insert errors; there is one upload per picture and one insert unless the upload failed; the inserted row is built from the draft; success ends with the success toast and then navigation to `/dashboard`; failure ends with the logged error and then the error toast, never navigates, and leaves the wizard as it was |
| Submit.SubmitTrace | src/components/ProfileWizard/ProfileCreator.tsx:74-135 | the complete sequence of requests for each case: no picture; a picture whose upload fails; a picture uploaded, then the URL lookup, the user lookup and the insert; each followed by the success or error ending |
| Submit.TraceWithoutPicture | src/components/ProfileWizard/ProfileCreator.tsx:76-134 | without a picture the requests are exactly the user lookup, the insert with URL `""`, and the ending for the insert's result |
| Submit.TraceUploadFails | src/components/ProfileWizard/ProfileCreator.tsx:79-134 | when the upload errors, the requests are exactly the upload, the logged error and the error toast |
| Submit.TraceUploaded | src/components/ProfileWizard/ProfileCreator.tsx:79-134 | after a successful upload the requests are exactly the upload, the URL lookup of the same name, the user lookup, the insert carrying that URL, and the ending |
| Submit.RetryAfterFailure | src/components/ProfileWizard/ProfileCreator.tsx:127-134 | after a failed submit, submitting again behaves exactly as a first submit of the same state |
| Submit.NoPictureNoUpload | src/components/ProfileWizard/ProfileCreator.tsx:76-102 | without a picture there is no upload: the user lookup and the insert come first, and the URL column holds `""` |

## Behaviour worth knowing

These are plain facts about the code; the model follows each of them.

- `handleSubmit` puts the draft's lists into the insert object unchanged. There
  is no conversion of the experience and education entries, and the wizard never
  reads a profile back.
- The component takes no completion callback. On success it shows the success
  toast and then navigates to `/dashboard` (`Submit.Finish`).
- A missing signed-in user is not an error: `user?.id` gives `user_id: undefined`
  and the insert is still attempted (`Submit.Cell`, `Submit.RowCopiesDraft`).
  Only the error results of the upload and of the insert lead to the error path.
- `handleSubmit` does not check the step. Only the view limits the "Complete"
  button to the last step (ProfileCreator.tsx:191-194), so `Submit.HandleSubmit` has no
  step requirement, and on failure it leaves the step as it was.

## Left out

- The rendering (`return` JSX), the progress bar's percentage, the step titles and the other three step views. These forward one text field per input, or the chosen picture `File` (PersonalDetails.tsx:17-21), through `updateFormData`. The dashboard and landing pages are not part of this model.
- The backend calls are not modelled: storage upload, `getPublicUrl`, `auth.getUser`, the `profiles` insert, `crypto.randomUUID`, `toast`, `navigate` and `console.error`. Their answers are fields of `Submit.Env`, and the requests are recorded as `Submit.Effect`s. Because of this the model never awaits or interleaves them, and React's asynchronous state updates are treated as immediate.
- An exception thrown by `getPublicUrl` or `getUser` themselves is not modelled. Only the error results of the upload and the insert lead to the error path.
- Draft.Patch: can also express clearing the picture (`profilePicture: Some(None)`). No view sends that patch: the picture input forwards a file only when one was chosen (PersonalDetails.tsx:17-21), so once a picture is set the program never clears it. The merge lemmas cover every patch, including that unreachable one.
- `Draft.File` keeps only the file's name. The bytes, size and MIME type are uploaded unchanged and never inspected.
- Professional.UpdateExperience: requires `0 <= index < |experiences|`. The view only calls it for displayed entries. With an index at or past the end, JavaScript would store a partial entry holding only `field`, with holes before it when the index is past the end. A negative index would set a property that is not an array element. Neither is modelled.
- Professional.UpdateExperience: the field name is one of the five experience fields rather than an arbitrary string. The view passes only those names, and any other string would add a stray property.
- Professional.UpdateEducation: requires `0 <= index < |education|`, and the field name is one of the three education fields. The view only calls it for displayed entries and with those names. With an index at or past the end, JavaScript would store a partial entry holding only `field`, with holes before it when the index is past the end. A negative index would set a property that is not an array element. Any other name would add a stray property. None of these is modelled.
- Draft.Merge: carries no contract of its own. Its behaviour, the spread `{ ...prev, ...data }`, is stated by Draft.MergeFrame, Draft.MergeEmpty and Draft.MergeIdempotent.
- Submit.Cell: carries no contract of its own. It is the insert object literal, and Submit.RowCopiesDraft states what each column holds.
- Submit.PictureUrl: carries no contract of its own. Submit.SubmitTrace and Submit.NoPictureNoUpload state the URL the row holds: `""` without a picture, otherwise the public URL of the stored name.
- Text.IsSpace: a definition with no contract. It is the white space of `String.prototype.trim` in the ECMAScript standard (the WhiteSpace and LineTerminator code points), and Text.Trim and Text.TrimEmptyIffAllSpace state its use.
- Wizard.Skip: carries no contract of its own. Its behaviour is stated by Wizard.SkipIsNext, which proves it is Next.
- Professional.Handle and Professional.Emit: dispatch events to the handlers above. Their behaviour is stated by Professional.HandleFrame, Professional.EmitNamesTarget and the `…Law` lemmas.
- The Enter key in the skill and interest inputs is not a separate event. It calls the same `addSkill` / `addInterest` handler as the button, so `AddSkillButton` / `AddInterestButton` stand for both.
