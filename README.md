# Photographic interaction capture form — verified model

`captura_foto.py` is a Streamlit form from the Jardín Botánico de Bogotá's
*in situ* conservation programme. Field biologists use it to digitise
photographs of ecological interactions. The session holds the form's values,
an error text and a `submitted` flag. Its logic has three parts:

- `validate()`, run by the "Validar" button. It appends Spanish messages to
  the error text and always clears `submitted`.
- `submit()`, run by the "Guardar" button. It turns the form into an
  eleven-column row and appends that row to the worksheet named after the
  digitizer, then sets `submitted`.
- The gate. It shows the preview and the "Guardar" button only while the
  error text is empty.

This project models that logic in Dafny and proves what each part promises.

- `records.dfy` (module `Records`) holds the form's values. It also models
  `str(date)`, the text that lands in the first column: `None` for a missing
  date, otherwise zero-padded `YYYY-MM-DD`.
- `validation.dfy` (module `Validation`) has the two rules `validate()`
  applies, the exact messages, and the error text after any number of
  validations.
- `rows.dfy` (module `Rows`) has the row `submit()` builds, its eleven
  columns, and its effect on the spreadsheet. The spreadsheet is a map from
  worksheet title to that worksheet's rows.
- `session.dfy` (module `Session`) has the session object, the spreadsheet
  object, and their methods: `PressValidar` (the "Validar" button, which
  commits the form and runs `Validate`), `Submit`, and `PressSave` (the
  gated button). Every method keeps the session vetted: an empty error
  text means the session's fields passed both rules, or are still the
  untouched defaults. It also has two client methods that walk through
  whole sessions.

Modelling choices:

- The code is modelled as written, with its two rules only:
  - the date must be present;
  - a photo must be present, and a name shorter than five characters is
    reported.
  The code does not check observer, digitizer, interaction, body part or
  location. It has no `site` field. It never resets the error text.
- Select boxes created with `index=None` give None until a choice is made.
  So observer, digitizer, interaction and body part are `Option<string>`.
  The two species fields are text inputs that start as `""`. Latitude and
  longitude are `Option<real>` and are otherwise opaque.
- `submit()` looks up the worksheet (line 121) before it reads `photo.name`
  (line 125). Each can raise: the digitizer may match no worksheet, or there
  may be no photo. Either exception aborts before `append_row`, so nothing
  is written and `submitted` keeps its value. `Submit` returns which of the
  three outcomes happened.
- The timestamp is a parameter. The spreadsheet is the `Spreadsheet` object
  and has no network behind it.

## Model

| member | source | states |
|---|---|---|
| Records.DecimalReadsBack | captura_foto.py:124 | the zero-padded decimal used by `str(date)` has exactly the requested width, contains only digits, and reads back as the number it renders |
| Records.DateText | captura_foto.py:124 | `str(date)`: a missing date gives "None"; a present date gives ten characters with dashes at positions 4 and 7 (YYYY-MM-DD); that the digits read back is `DecimalReadsBack`, that no two dates collide is `DateTextInjective` |
| Records.DateTextInjective | captura_foto.py:124 | two form dates (present or missing) give the same date-column text exactly when they are the same date |
| Validation.DateCheck | captura_foto.py:101-103 | the date rule contributes text exactly when the date is missing; which text is `ReportsMissingDate` |
| Validation.PhotoCheck | captura_foto.py:105-111 | the photo rule contributes nothing exactly when a photo is attached and its name has at least five characters; which text is `ReportsShortName` and `ReportsMissingPhoto` |
| Validation.Report | captura_foto.py:101-111 | the text of one pass, the date rule's text then the photo rule's, is empty exactly when the date is present and a photo with a name of at least five characters is attached; its opening and ending are stated in the three `Reports…` lemmas |
| Validation.ReportsMissingDate | captura_foto.py:101-103 | the appended text starts with "Falta fecha de observación (obligatorio).\n\n" exactly when the date is missing |
| Validation.ReportsShortName | captura_foto.py:105-108 | the appended text ends with the "sospechosamente pequeño" message and its double newline exactly when a photo is attached and its name has fewer than five characters |
| Validation.ReportsMissingPhoto | captura_foto.py:105-111 | the appended text ends with "No hay fotografía adjudicada a la observación.\n" exactly when no photo is attached; it is then the date text plus that message, with no short-name check |
| Validation.AfterPasses | captura_foto.py:26-111 | the error text after any number of passes keeps the text before them as a prefix; when it stays empty is `CleanAfterPassesIff`, that it never empties again is `ErrorsPersist` |
| Validation.ErrorsPersist | captura_foto.py:26-111 | once the error text is non-empty, no number of further passes makes it empty |
| Validation.CleanAfterPassesIff | captura_foto.py:26-114 | starting from the session's empty error text, the text is still empty after a run of passes exactly when every pass was on an acceptable form |
| Validation.RepairDoesNotReopen | captura_foto.py:99-114 | one failed pass followed by a pass on a corrected form leaves error text behind; validating the same failing form twice repeats its messages |
| Rows.BuildRow | captura_foto.py:123-135 | a row exists exactly when a photo is attached (`photo.name` otherwise raises), and it has eleven entries |
| Rows.PositionIsBijective | captura_foto.py:123-135 | the eleven columns sit at eleven distinct positions, and the position of each column maps back to that column |
| Rows.RowFollowsColumns | captura_foto.py:123-135 | each position of the row holds its column's field: date text, photo name, observer, sp1, sp2, interaction, part, lat, lon, timestamp, digitizer; a missing value is an empty cell, never a dropped column |
| Rows.RowIsInjective | captura_foto.py:123-135 | two rows are equal exactly when their forms and timestamps are equal, so the row keeps every field |
| Rows.AppendRow | captura_foto.py:136 | appending to a worksheet adds the row at the end of that worksheet; no worksheet is added or removed and every other worksheet is unchanged |
| Rows.Submission | captura_foto.py:119-137 | the outcome is "worksheet not found" exactly when the digitizer names no worksheet; it is "no photo" exactly when the worksheet exists but no photo is attached; a failure leaves the spreadsheet unchanged; success appends the form's row to the digitizer's worksheet |
| Rows.SubmissionAppendsOneRow | captura_foto.py:121-137 | a successful submission keeps the digitizer's old rows as a prefix and adds exactly one row, whose last column is the digitizer's name; every other worksheet is unchanged |
| Session.Spreadsheet.AppendRow | captura_foto.py:136 | the object's worksheets change exactly as `Rows.AppendRow` says |
| Session.FormSession.constructor | captura_foto.py:26-229 | a session starts with empty error text and `submitted` false (lines 26-33), and every widget at its default value (the widget declarations at lines 147-229); it starts vetted |
| Session.FormSession.SaveOffered | captura_foto.py:235 | the preview and the "Guardar" button are shown exactly when the error text is empty |
| Session.FormSession.PressValidar | captura_foto.py:142-231 | a press of "Validar" commits the entered values as the fields, then appends the report on them to the error text and clears `submitted`; the session is vetted afterwards (an empty error text means the session's fields passed both rules, or are still the untouched defaults) |
| Session.FormSession.Validate | captura_foto.py:99-114 | the new error text is the old text followed by the report on the current form; the old text stays a prefix; the text is unchanged exactly when the form is acceptable; the fields are unchanged; `submitted` is false; the session is vetted afterwards |
| Session.FormSession.Submit | captura_foto.py:119-137 | the outcome and the new worksheets are those of `Rows.Submission` on the form; the fields and the error text are unchanged; `submitted` becomes true on success and keeps its old value on failure; whether the session is vetted does not change |
| Session.FormSession.PressSave | captura_foto.py:235-278 | the button can be pressed exactly when the error text is empty; with error text, the spreadsheet and the flag are unchanged; when pressed, it behaves as `Submit`; in every case `submitted` ends true exactly when it was already true or a row was appended; in a vetted session a row is appended only for a form that passes both rules, so erroneous data is never saved (line 93) |
| Session.FormSession.Revalidate | captura_foto.py:99-114 | the corrected validation: the error text becomes the report on the current form alone, so the save button is offered exactly when the current form is acceptable; the session is vetted afterwards |

The two client methods `Session.SaveOneObservation` and
`Session.CorrectAfterMissingDate` have no contract. The first walks through a
complete session: enter the form and press "Validar", then save. The form's row ends up as
the only row of the "Nelson" worksheet. The second shows the gate staying
closed after a correction, and reopening with `Revalidate`.

## Left out

- Widget rendering, the Markdown text, and the preview `st.write` lines
  (captura_foto.py:83-95, 142-231, 243-276). These are rendering only. The
  form's effect on the session is the `PressValidar` method: the widgets
  reach the session only when "Validar" is pressed, so the model has no
  operation that changes the fields without validating them.
- `st.form(clear_on_submit=True)`, which resets the widgets after "Validar".
  Streamlit behaviour, selected at line 144. Between `Validate` and
  `PressSave` the model keeps the fields as they were.
- Clearing the preview once `submitted` is set (lines 280-281). This is
  rendering only.
- `gspread` authentication, `open_by_key` and the network (lines 24, 121,
  136). These are foreign calls. Only the worksheet lookup and `append_row`
  are modelled, as operations on a map.
- Other sessions and other programs writing to the same spreadsheet. In the
  model `Spreadsheet.sheets` changes only through this session's
  `append_row`, and `SubmissionAppendsOneRow`'s "the old rows stay a prefix"
  takes each `append_row` to be atomic.
- The clock, `datetime.now()` and `strftime` (lines 122, 133). The timestamp
  is an opaque string parameter.
- The latitude and longitude bounds (lines 211-229). The widgets enforce
  them on floating-point values, and nothing in the logic reads them.
- The choice lists `observers`, `digitizers`, `interacts` and `parts`
  (lines 36-79). Nothing checks membership in them.
- The unused `id_observaciones` list (line 81), the unused
  `st.session_state.data` (lines 29-30) and `exit(0)` (line 286). They have
  no effect on the logic.
- The gate reads only the error text. The session starts with empty error
  text, so "Guardar" is offered before any validation. The model keeps this
  as written and does not claim it is unintended.

## Findings

| source | as written | input that shows it | evidently intended | confidence | as-written member | corrected member |
|---|---|---|---|---|---|---|
| captura_foto.py:26-27,103,108,111 | `validate()` only appends to `st.session_state.errors`, and nothing ever clears it | validate a form with no date (error text non-empty), add the date and validate again: the text still holds the first message, so "Guardar" never appears again in that session | each pass reports on the current form only, so a corrected form can be saved | medium, not executed | Validation.RepairDoesNotReopen | Session.FormSession.Revalidate |
