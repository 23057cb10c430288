/**
 * The Streamlit session of captura_foto.py as an object: the form fields the
 * widgets write, the accumulated error text and the `submitted` flag, with
 * the two callbacks `validate()` and `submit()` and the gate that offers the
 * "Guardar" button only while the error text is empty. The remote
 * spreadsheet is a second object holding one sequence of rows per worksheet.
 */
module Session {
  import opened Records
  import opened Validation
  import opened Rows

  /** The spreadsheet opened by key; only `append_row` on a named worksheet is used. */
  class Spreadsheet {
    var sheets: Book

    constructor (initial: Book)
      ensures sheets == initial
    {
      sheets := initial;
    }

    /** `worksheet(title).append_row(row)` on a worksheet that exists. */
    method AppendRow(title: string, row: Row)
      requires title in sheets
      modifies this
      ensures sheets == Rows.AppendRow(old(sheets), title, row)
    {
      sheets := sheets[title := sheets[title] + [row]];
    }
  }

  class FormSession {
    var date: Option<Date>
    var photo: Option<Photo>
    var observer: Option<string>
    var digitizer: Option<string>
    var sp1: string
    var sp2: string
    var inter: Option<string>
    var part: Option<string>
    var lat: Option<real>
    var lon: Option<real>
    /** The text shown above the form; `validate()` only ever appends to it. */
    var errors: string
    var submitted: bool

    /** The form's field values, as one record. */
    function Fields(): Observation
      reads this
    {
      Observation(date, photo, observer, digitizer, sp1, sp2, inter, part, lat, lon)
    }

    /**
     * What the page relies on to keep erroneous data out of the spreadsheet:
     * while the error text is empty, the session's fields have passed the
     * rules, or the form is still untouched. The widgets reach the session
     * only through "Validar", so no form gets in unchecked.
     */
    predicate Vetted()
      reads this
    {
      errors == "" ==> Acceptable(Fields()) || Fields() == EmptyForm
    }

    /** Start of a session: no error text, nothing submitted, every widget at its default. */
    constructor ()
      ensures Fields() == EmptyForm
      ensures errors == "" && !submitted
      ensures Vetted()
    {
      date, photo, observer, digitizer := None, None, None, None;
      sp1, sp2 := "", "";
      inter, part, lat, lon := None, None, None, None;
      errors := "";
      submitted := false;
    }

    /**
     * A press of "Validar": the form commits the values the user entered to
     * the widgets' session keys, then its callback `validate()` runs on them.
     */
    method PressValidar(o: Observation)
      modifies this
      ensures Fields() == o
      ensures errors == old(errors) + Report(o)
      ensures !submitted
      ensures Vetted()
    {
      date, photo, observer, digitizer := o.date, o.photo, o.observer, o.digitizer;
      sp1, sp2 := o.sp1, o.sp2;
      inter, part, lat, lon := o.inter, o.part, o.lat, o.lon;
      Validate();
    }

    /** Whether the preview and the "Guardar" button are shown: only with no error text. */
    predicate SaveOffered()
      reads this
      ensures SaveOffered() <==> errors == ""
    {
      |errors| == 0
    }

    /**
     * `validate()`: appends the messages of both rules to the error text,
     * keeps every field, and always clears `submitted`.
     */
    method Validate()
      modifies this
      ensures Fields() == old(Fields())
      ensures errors == old(errors) + Report(old(Fields()))
      ensures old(errors) <= errors
      ensures errors == old(errors) <==> Acceptable(Fields())
      ensures old(errors) != "" ==> !SaveOffered()
      ensures !submitted
      ensures Vetted()
    {
      ghost var before := errors;
      if date.None? {
        errors := errors + MissingDateMessage;
      }
      ghost var dated := errors;
      assert dated == before + DateCheck(date);
      if photo.Some? {
        if |photo.value.name| < MinNameLength {
          errors := errors + ShortNameMessage;
        }
      } else {
        errors := errors + MissingPhotoMessage;
      }
      assert errors == dated + PhotoCheck(photo);
      AppendTwice(before, DateCheck(date), PhotoCheck(photo));
      submitted := false;
    }

    /**
     * `submit()`: looks up the digitizer's worksheet, builds the row and
     * appends it there, then sets `submitted`. When the lookup or the row
     * fails it raises: nothing is written and the flag keeps its value.
     */
    method Submit(book: Spreadsheet, timestamp: string) returns (outcome: SubmitOutcome)
      modifies this, book
      ensures (outcome, book.sheets) == Submission(old(Fields()), old(book.sheets), timestamp)
      ensures Fields() == old(Fields()) && errors == old(errors)
      ensures submitted == (old(submitted) || outcome == Appended)
      ensures Vetted() == old(Vetted())
    {
      if digitizer.None? || digitizer.value !in book.sheets {
        return WorksheetNotFound;
      }
      var row := BuildRow(Fields(), timestamp);
      if row.None? {
        return NoPhoto;
      }
      book.AppendRow(digitizer.value, row.value);
      submitted := true;
      outcome := Appended;
    }

    /**
     * A press of "Guardar". The button exists only while the error text is
     * empty; with error text there is nothing to press and nothing changes.
     * In a vetted session only a form that passed the rules is ever saved.
     */
    method PressSave(book: Spreadsheet, timestamp: string) returns (outcome: Option<SubmitOutcome>)
      modifies this, book
      ensures outcome.Some? <==> old(SaveOffered())
      ensures outcome.None? ==> book.sheets == old(book.sheets) && submitted == old(submitted)
      ensures outcome.Some? ==>
                (outcome.value, book.sheets) == Submission(old(Fields()), old(book.sheets), timestamp)
      ensures submitted == (old(submitted) || outcome == Some(Appended))
      ensures Fields() == old(Fields()) && errors == old(errors)
      ensures Vetted() == old(Vetted())
      ensures old(Vetted()) && outcome == Some(Appended) ==> Acceptable(old(Fields()))
    {
      if !SaveOffered() {
        return None;
      }
      var o := Submit(book, timestamp);
      outcome := Some(o);
    }

    /**
     * `validate()` as evidently intended: the error text is reset first, so
     * it describes the current form only and the save button reopens once
     * the form is corrected.
     */
    method Revalidate()
      modifies this
      ensures Fields() == old(Fields())
      ensures errors == Report(Fields())
      ensures SaveOffered() <==> Acceptable(Fields())
      ensures !submitted
      ensures Vetted()
    {
      errors := "";
      Validate();
    }
  }

  /**
   * A session in the order of captura_foto.py: the form is filled in,
   * validated, and saved as the one row of the digitizer's worksheet.
   */
  method SaveOneObservation()
  {
    var sheets: Book := map["Angela" := [], "Nelson" := []];
    var book := new Spreadsheet(sheets);
    var session := new FormSession();
    var form := Observation(Some(CalendarDate(2024, 5, 1)), Some(Photo("img1.jpg")),
                            Some("Nelson Salinas"), Some("Nelson"), "", "",
                            Some("Poliniza a"), Some("flor"), Some(3.9), Some(-74.0));
    var stamp := "2024-05-02 10:00:00";
    assert Acceptable(form);
    session.PressValidar(form);
    assert session.SaveOffered();
    var outcome := session.PressSave(book, stamp);
    assert "Nelson" in sheets;
    assert outcome == Some(Appended);
    assert session.submitted;
    assert book.sheets["Nelson"] == [BuildRow(form, stamp).value];
  }

  /**
   * A form validated once without its date, then corrected: with `validate()`
   * as written the save button stays hidden; resetting the error text first
   * brings it back.
   */
  method CorrectAfterMissingDate()
  {
    var session := new FormSession();
    var good := Observation(Some(CalendarDate(2024, 5, 1)), Some(Photo("img1.jpg")),
                            Some("Nelson Salinas"), Some("Nelson"), "", "",
                            Some("Poliniza a"), Some("flor"), Some(3.9), Some(-74.0));
    var bad := good.(date := None);
    assert !Acceptable(bad);
    session.PressValidar(bad);
    assert !session.SaveOffered();
    assert Acceptable(good);
    session.PressValidar(good);
    assert !session.SaveOffered();
    session.Revalidate();
    assert session.SaveOffered();
  }
}
