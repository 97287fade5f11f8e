# carplate-api registration core, in Dafny

A model of the write rules of the carplate-api Django application. A `Registration`
records a car plate, its owner, the car model, a picture (`image`) and a flag
(`retrieve_image`) that asks for that picture to be fetched. The model covers:

- **Validation.** The plate pattern has eleven alternatives. Owner and car model follow
  the "two or more words" pattern `^\w+\s+(\w+\s*)+$`. Both are transcribed literally
  into a small regular-expression datatype with a matching semantics (`Regex`, `Schema`).
  Each is then proved equal to a direct description: the plate's letter/digit shape
  (`Plates`), and "starts with a word character, only word and space characters, some
  space later followed by a word character" (`Names`). The form's three cleaners and
  the checks Django's model form adds around them are in `Forms`.
- **Normalisation on save.** Plate and car model are upper-cased and the owner
  title-cased before a row is written. The table keeps plates unique ignoring case, and
  its rows in `created` order (`Text`, `Models`).
- **The post-save trigger.** Every successful save whose record has `retrieve_image`
  set sends one `retrieve_image_task` carrying the stored plate (`Receivers`). A new
  record has the flag set and a blank image.
- **The worker** `retrieve_image_task` (`Tasks`). It clears the flag. It takes the
  last cached file `images/<model with spaces as _>.*`. Otherwise it uses the one
  picture a web image search may download, stored under that key. Otherwise it uses
  `images/404.jpg`. Then it saves, which sends no further task.

The table is a `Registry` class. Its rows are a `seq<Row>` in `created` order, and a
logical counter issues ids and creation stamps. Its `Save` writes in place and then
runs the receiver, which appends to a `TaskQueue` class. The worker is a method that
takes that registry. Two things the task reads from the outside world are parameters: the
listing of `images/` (in glob order) and the search's outcome (`Option`).

Where the sources disagree, the model follows this reading:

- `api/models.py` is an older revision. It has one-word validators, no `image` or
  `retrieve_image` field and no upper-casing of the car model.
- `api/forms.py:22` and `api/forms.py:31` refer to a two-word pattern attribute that
  file does not define.
- The field definitions, both patterns, the length limits and the defaults are
  therefore taken from `api/migrations/0001_initial.py:19-29`.
- Upper-casing of the car model follows the tests (`api/tests/test_models.py:41-44`).
- Plate and owner normalisation follow `api/models.py:36-39`.
- No whitespace is trimmed on save.
- Changing the car model does not raise `retrieve_image` again. No code does either.
- `save()` itself does not validate: `Registration.objects.create` stores any text,
  as the test fixtures do with a plate such as "321cba". Validation happens only in
  the form.

One observation from the proofs: the plate alternative `\d{4}H` can never decide a
match, because `\d{4}[a-zA-Z]{1,2}` already accepts every such plate
(`Plates.FourDigitsHIsRedundant`).

## Model

| member | source | states |
|---|---|---|
| Text.Upper | api/models.py:37 | `str.upper` on ASCII text: same length; each letter becomes its own capital; every other character is kept |
| Text.Title | api/models.py:38 | `str.title` on ASCII text: same length; each letter stays the same letter, as a capital exactly where the character before it is not a letter and in lower case after a letter; every other character is kept |
| Text.UpperEqual | api/models.py:25 | two texts upper-case to the same text iff they have the same length and, position by position, the same letter up to case or the same character: the case-insensitive comparison of the plate column |
| Text.TitleOfSameLetters | api/models.py:38 | texts that differ only in the case of their letters title-case to the same text |
| Text.UpperIdempotent | api/models.py:37 | upper-casing twice equals upper-casing once |
| Text.TitleIdempotent | api/models.py:38 | title-casing twice equals title-casing once |
| Regex.Matches | api/models.py:14-22 | the language of a pattern, read as a full match as `re.match` with a final `$` gives: a class run within its bounds, a split for concatenation, one alternative of a group, one or more (zero or more) pieces for `+` (`*`) |
| Schema.PlatePattern | api/models.py:14-22 | the eleven plate alternatives, transcribed in the source's order with their bounds and the letters `[THP]`, `H`, `P`, `E` |
| Schema.PlateAlternatives | api/migrations/0001_initial.py:21 | the same eleven alternatives, as the migration repeats them |
| Schema.TwoWordPattern | api/migrations/0001_initial.py:22-23 | `\w+\s+(\w+\s*)+`, the owner and car-model pattern |
| Schema.FieldsValid | api/migrations/0001_initial.py:21-23 | a record meets the column rules: plate non-blank, at most 6 characters and matching the plate pattern; owner and car model non-blank, at most 200 characters and matching the two-word pattern |
| Regex.PlusOneIsRun | api/migrations/0001_initial.py:22 | `c+` matches exactly the non-empty runs of class `c` |
| Regex.StarOneIsRun | api/migrations/0001_initial.py:22 | `c*` matches exactly the runs of class `c`, the empty one included |
| Plates.PlatePatternIsShape | api/models.py:14-22 | a text matches the eleven-alternative plate pattern iff its letter/digit shape is one of the listed shapes, with the case-sensitive `[THP]`, `H`, `P` and `E` letters where the pattern has them |
| Plates.PlateLength | api/models.py:14-25 | every plate the pattern accepts has 4 to 6 characters, so it fits `max_length=6` |
| Plates.UpperKeepsPlate | api/models.py:14-22 | upper-casing a plate the pattern accepts gives a plate the pattern accepts |
| Plates.FourDigitsHIsRedundant | api/models.py:19-21 | every plate accepted by `\d{4}H` is accepted by `\d{4}[a-zA-Z]{1,2}` |
| Plates.AcceptedExamples | api/tests/test_forms.py:41-46 | "ABC123" and "XY123" are plates |
| Plates.RefusedExamples | api/tests/test_forms.py:54-56 | "AB" and a word are not plates |
| Plates.CaseSensitiveExamples | api/models.py:20 | "T12345" is a plate and "t12345" is not: `[THP]` is case-sensitive |
| Names.TwoWordPatternIsShape | api/migrations/0001_initial.py:22-23 | a text matches `^\w+\s+(\w+\s*)+$` iff it starts with a word character, holds only word and space characters, and has a space later followed by a word character |
| Names.UpperKeepsTwoWords | api/migrations/0001_initial.py:23 | upper-casing a car model that matches the two-word pattern keeps it matching |
| Names.TitleKeepsTwoWords | api/migrations/0001_initial.py:22 | title-casing an owner that matches the two-word pattern keeps it matching |
| Names.AcceptedNames | api/tests/test_forms.py:41-46 | "john doe" and "Demo Car", and their stored forms "John Doe" and "DEMO CAR", have two words |
| Names.RefusedNames | api/tests/test_forms.py:58-60 | "JohnDoe" and "testmodel" do not |
| Names.WhitespaceExamples | api/migrations/0001_initial.py:22 | leading whitespace is refused and trailing whitespace accepted |
| Forms.CleanPlate | api/forms.py:37-44 | succeeds iff the plate matches the plate pattern, then returns it unchanged; otherwise fails with the plate message |
| Forms.CleanOwner | api/forms.py:28-35 | succeeds iff the owner matches the two-word pattern, then returns it unchanged; otherwise fails with the owner message |
| Forms.CleanCarModel | api/forms.py:19-26 | succeeds iff the car model matches the two-word pattern, then returns it unchanged; otherwise fails with the car-model message |
| Forms.FieldErrors | api/forms.py:8-44 | errors are keyed only by the three form fields; there are none iff the plate, owner and model meet the migration's field rules with the default image and flag, and no stored plate equals the plate ignoring case; `plate` holds an error iff the plate is blank, too long, off the plate pattern or taken, and `owner` (`car_model`) iff that value is blank, too long or off the two-word pattern; a blank value is `Required`, a value in length that misses its pattern is `Invalid` with its cleaner's message, and a clean plate that is taken is `Duplicate` |
| Forms.NoFieldErrors | api/forms.py:19-44 | clean values within their length limits, with a plate no stored record holds, leave no error |
| Forms.Errors | api/forms.py:8-12 | the errors of submitted data are keyed only by the form fields; there are none iff the bound `plate`, `owner` and `car_model` are acceptable (a missing key binds as blank); each of the three keys holds an error iff its own bound value breaks its field's rules |
| Forms.IsValid | api/tests/test_forms.py:41-46 | `form.is_valid()` holds iff the bound plate, owner and car model are acceptable |
| Forms.Instance | api/migrations/0001_initial.py:24-25 | the instance a valid form saves carries the three bound values, the blank image default and the flag default True |
| Forms.OnlyFormFieldsMatter | api/forms.py:12 | two submissions that agree on `plate`, `owner` and `car_model` get the same errors and the same instance; that instance has a blank image and the flag set, whatever else was sent |
| Forms.ValidFieldsExample | api/tests/test_forms.py:41-46 | "XY123", "John Doe", "DEMO CAR" have no error beside a stored "ZXY123" |
| Forms.ValidFormExample | api/tests/test_forms.py:41-46 | the form bound from that data is valid |
| Forms.DuplicatePlateExample | api/tests/test_forms.py:48-52 | resubmitting the stored "ZXY123" is refused as a duplicate |
| Forms.DuplicateOtherCaseExample | api/models.py:25 | "zxy123" beside a stored "ZXY123" is refused as a duplicate: the unique check ignores case |
| Forms.ShortPlateExample | api/tests/test_forms.py:54-56 | plate "AB" is refused with the plate message |
| Forms.OneWordExample | api/tests/test_forms.py:58-60 | owner "JohnDoe" and model "testmodel" are refused with their messages |
| Receivers.TaskQueue.Delay | api/receivers.py:23 | `.delay(plate)` appends one task carrying the plate and leaves the earlier tasks |
| Receivers.Triggered | api/receivers.py:21-23 | one save sends one task when the flag is set and none otherwise; every task sent carries the record's plate |
| Receivers.RegistrationPostSave | api/receivers.py:10-23 | the queue grows by exactly the tasks the saved record triggers; the record is not touched |
| Models.Normalize | api/models.py:36-39 | the stored record is normalised (plate and car model upper-case, owner title-case); plate, owner and car model keep their letters up to case and every other character; image and flag are kept |
| Models.NormalizedFormIsUnique | api/models.py:36-39 | any normalised record with the same letters up to case, image and flag is the normalised record, so the contract above fixes what `save()` stores |
| Models.NormalizeIdempotent | api/models.py:37-38 | saving an already saved record leaves its text fields as they are |
| Models.NormalizeKeepsValid | api/models.py:36-39 | normalising a record that meets the field rules gives one that still meets them |
| Models.NormalizeExample | api/tests/test_models.py:41-54 | "abc123", "john doe", "super car" are stored as "ABC123", "John Doe", "SUPER CAR" |
| Models.Str | api/models.py:33-34 | a record shows as its plate, which is upper-case once the record is normalised |
| Models.FindPlate | api/tasks.py:19 | `objects.get(plate=…)` finds a row whose plate equals the key ignoring case, and finds none exactly when no row has it |
| Models.FindPlateDecidesConflict | api/models.py:25 | in a table with unique plates, another row holds a plate iff the lookup by plate finds a row other than the one being saved |
| Models.InsertKeepsValid | api/models.py:25 | appending a normalised record whose plate no row holds, ignoring case, with a fresh id and stamp keeps plates unique, rows normalised and `created` increasing |
| Models.UpdateKeepsValid | api/models.py:25 | rewriting one row's record to a normalised one whose plate no other row holds keeps the table valid |
| Models.Registry.List | api/models.py:30-31 | listing returns the stored rows, ordered by strictly increasing `created` |
| Models.Registry.Save | api/models.py:36-39 | a save writes the normalised record: appended with a fresh id and stamp, or in place of the row with its id. A plate held by another row ignoring case raises IntegrityError and changes nothing. After a successful write the queue grows by the tasks the stored record triggers. The table invariants are kept |
| Models.Registry.Create | api/tests/test_models.py:56-59 | creating with a plate already stored, in any case, raises IntegrityError and adds no row; otherwise it appends the normalised record with a blank image and the flag set, and sends one task carrying the upper-cased plate |
| Tasks.CacheKey | api/tasks.py:23 | the key is the car model with each space replaced by an underscore; no space remains and every other character is kept |
| Tasks.CacheMatches | api/tasks.py:23 | every path found is `images/<key>.<ext>`; none is found exactly when no listed file is `<key>.<ext>` |
| Tasks.Resolve | api/tasks.py:26-60 | the cache is used iff it has a match, and then its last match; the download iff there is no match and the search found a picture, stored as `<key>.jpg`; the placeholder iff neither |
| Tasks.ImageOf | api/tasks.py:28-59 | the value written to `image`: the cached path, `images/` followed by the stored name, or `images/404.jpg` |
| Tasks.ImageIsInImagesDir | api/tasks.py:26-60 | on every branch the stored image is a path inside `images/`; the fallback needs no input and cannot fail |
| Tasks.Worked | api/tasks.py:20-60 | the saved record has the flag cleared, so it triggers no task; plate, owner and model are unchanged; the image is the resolved one; a normalised record stays normalised |
| Tasks.DownloadThenHit | api/tests.py:222-226 | once the downloaded picture is in `images/`, the same model resolves to it from the cache |
| Tasks.CacheHitIgnoresCrawler | api/tasks.py:26-29 | on a cache hit the search's answer plays no part |
| Tasks.CacheExamples | api/tests/test_models.py:61-67 | model "404" finds `images/404.jpg`; "super car" finds nothing and falls back to the placeholder |
| Tasks.RepeatedTaskSettles | api/tasks.py:23-56 | a second task for the same record, run after the first one's download is stored, leaves the record as the first left it |
| Tasks.RetrieveImageTask | api/tasks.py:10-62 | an unknown plate raises and changes nothing. Otherwise only that row changes, to `Worked` of it. The flag ends False on every branch, no task is sent, and the table invariants are kept |

## Left out

- HTTP views, URL routing and serializers are not part of this model. They route
  requests to the form and the table.
- The Celery broker, asynchronous execution and concurrency are not modelled.
  `.delay()` appends to a queue.
- The case-insensitive field mixin is not part of this model. Its effect appears as
  case-insensitive lookup and uniqueness of plates.
- Printing and logging are left out.
- The image search, temporary directories and file reading and writing are inputs:
  a directory listing and an optional downloaded file.
- The crawl filters and `max_num=1` appear only as "zero or one picture".
- Tasks.RetrieveImageTask: the stored download name is `images/<key>.jpg`, the path
  the tests expect. Django's storage name cleaning is not modelled: it drops
  characters other than word characters, `-` and `.`, and adds a suffix to existing
  names.
- Tasks.CacheMatches: glob metacharacters in a car model, and the order of glob
  results, are not modelled. The listing is taken in the given order, and `pop()`
  takes its last element.
- Regular expressions use ASCII `\w`, `\s`, `\d` and letters, not Unicode classes.
- `$` is read as the end of the text; Python also lets it match before a final newline.
- Backtracking cost of `(\w+\s*)+` is not modelled.
- Text.Upper: upper-casing changes ASCII letters only. Python's Unicode rules, where a
  letter such as 'š' has a capital and 'ß' becomes "SS", are not modelled, because the
  model's text is read as ASCII.
- Text.Title: title-casing follows ASCII letters only. Python's Unicode case rules are
  not modelled.
- The form field's default whitespace stripping is not modelled.
- The wall-clock `created` stamp and the database's id sequence are one logical
  counter.
- Models.Registry.Save: it requires the row with the given id to exist. Saving an
  instance whose row was deleted meanwhile, which Django would re-insert, is not
  modelled.
- Deleting and updating records through the API are not modelled beyond `Save`.
- Tasks.RepeatedTaskSettles: after a fallback to the placeholder, a later task whose
  search succeeds stores the download instead. The lemma requires the later search to
  find nothing in that case.
