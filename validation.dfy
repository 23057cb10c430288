/**
 * The checks `validate()` runs on the form (captura_foto.py:99-114): which
 * Spanish messages one pass appends to the session's error text, and what the
 * error text is after several passes, since nothing ever clears it.
 */
module Validation {
  import opened Records

  // The messages are written with escapes for their accented letters
  // (\U{f3} is ó, \U{ed} is í, \U{f1} is ñ), and the two long ones in two
  // pieces, which lets the verifier read their characters one by one.
  const MissingDateMessage: string := "Falta fecha de observaci\U{f3}n (obligatorio).\n\n"
  const ShortNameMessage: string := "El nombre de la fotograf\U{ed}a " + "es sospechosamente peque\U{f1}o.\n\n"
  /** The only message that ends with a single newline. */
  const MissingPhotoMessage: string := "No hay fotograf\U{ed}a adjudicada " + "a la observaci\U{f3}n.\n"

  /** A photo name shorter than this is reported as suspicious. */
  const MinNameLength: nat := 5

  /** The contribution of the date rule: a message exactly when the date is missing. */
  function DateCheck(date: Option<Date>): (r: string)
    ensures r == "" <==> date.Some?
  {
    if date.None? then MissingDateMessage else ""
  }

  /** The contribution of the photo rule: the name is only looked at when a photo is there. */
  function PhotoCheck(photo: Option<Photo>): (r: string)
    ensures r == "" <==> photo.Some? && |photo.value.name| >= MinNameLength
  {
    match photo
    case Some(p) => if |p.name| < MinNameLength then ShortNameMessage else ""
    case None => MissingPhotoMessage
  }

  /**
   * The text one `validate()` pass appends to the error text: nothing
   * exactly when both rules accept the form.
   */
  function Report(o: Observation): (r: string)
    ensures r == "" <==> Acceptable(o)
  {
    DateCheck(o.date) + PhotoCheck(o.photo)
  }

  /** What the two rules accept: a date, and a photo whose name has at least five characters. */
  predicate Acceptable(o: Observation) {
    o.date.Some? && o.photo.Some? && |o.photo.value.name| >= MinNameLength
  }

  predicate EndsWith(s: string, suffix: string) {
    |suffix| <= |s| && s[|s| - |suffix|..] == suffix
  }

  /**
   * A proof step for `Validate`, which appends the two rules' texts one
   * after the other: appending `b` then `c` is appending `b + c`, and the
   * old text stays a prefix.
   */
  lemma AppendTwice<T>(a: seq<T>, b: seq<T>, c: seq<T>)
    ensures a + b + c == a + (b + c)
    ensures a <= a + (b + c)
    ensures a + (b + c) == a <==> b + c == []
  {
  }

  /** The report opens with the missing-date message exactly when the date is absent. */
  lemma ReportsMissingDate(o: Observation)
    ensures MissingDateMessage <= Report(o) <==> o.date.None?
  {
    if o.date.Some? {
      assert Report(o) == PhotoCheck(o.photo);
      assert MissingDateMessage[0] == 'F';
      assert ShortNameMessage[0] == 'E';
      assert MissingPhotoMessage[0] == 'N';
    }
  }

  /** The next-to-last character tells the two newline endings apart. */
  lemma NextToLast(o: Observation)
    requires Report(o) != ""
    ensures |Report(o)| >= 2
    ensures Report(o)[|Report(o)| - 2] == (if o.photo.None? then '.' else '\n')
  {
  }

  /**
   * The report ends with the short-name message exactly when a photo is
   * attached and its name has fewer than five characters.
   */
  lemma ReportsShortName(o: Observation)
    ensures EndsWith(Report(o), ShortNameMessage) <==>
            o.photo.Some? && |o.photo.value.name| < MinNameLength
  {
    var r := Report(o);
    if EndsWith(r, ShortNameMessage) {
      NextToLast(o);
      assert r[|r| - 2] == ShortNameMessage[|ShortNameMessage| - 2] == '\n';
    }
  }

  /**
   * The report ends with the no-photo message exactly when no photo is
   * attached; in that case the short-name message is not part of it at all.
   */
  lemma ReportsMissingPhoto(o: Observation)
    ensures EndsWith(Report(o), MissingPhotoMessage) <==> o.photo.None?
    ensures o.photo.None? ==> Report(o) == DateCheck(o.date) + MissingPhotoMessage
  {
    var r := Report(o);
    if EndsWith(r, MissingPhotoMessage) {
      NextToLast(o);
      assert r[|r| - 2] == MissingPhotoMessage[|MissingPhotoMessage| - 2] == '.';
    }
  }

  // ----------------------------------------------------------------------
  // Several passes, as the session accumulates them
  // ----------------------------------------------------------------------

  /**
   * The error text after running `validate()` once on each of `passes`, in
   * order, starting from `errors`. The code only ever appends, so the text
   * before the passes is a prefix of the text after them.
   */
  function AfterPasses(errors: string, passes: seq<Observation>): (r: string)
    ensures errors <= r
    decreases |passes|
  {
    if passes == [] then errors else AfterPasses(errors + Report(passes[0]), passes[1..])
  }

  /** Once the error text is non-empty, no later pass makes it empty again. */
  lemma ErrorsPersist(errors: string, passes: seq<Observation>)
    requires errors != ""
    ensures AfterPasses(errors, passes) != ""
  {
  }

  /**
   * From the initial empty error text, the text is still empty after a run of
   * passes exactly when every one of those passes was on an acceptable form.
   */
  lemma {:induction false} CleanAfterPassesIff(passes: seq<Observation>)
    ensures AfterPasses("", passes) == "" <==>
            forall i :: 0 <= i < |passes| ==> Acceptable(passes[i])
    decreases |passes|
  {
    if passes != [] {
      if Report(passes[0]) == "" {
        assert "" + Report(passes[0]) == "";
        CleanAfterPassesIff(passes[1..]);
        forall i | 1 <= i < |passes|
          ensures passes[i] == passes[1..][i - 1]
        {
        }
      } else {
        assert "" + Report(passes[0]) == Report(passes[0]);
        ErrorsPersist(Report(passes[0]), passes[1..]);
        assert !Acceptable(passes[0]);
      }
    }
  }

  /**
   * As written, correcting the form does not reopen the save button: one
   * failed pass followed by a pass on an acceptable form still leaves error
   * text, and validating the same failing form twice repeats its messages.
   */
  lemma RepairDoesNotReopen(bad: Observation, good: Observation)
    requires !Acceptable(bad) && Acceptable(good)
    ensures AfterPasses("", [bad, good]) != ""
    ensures AfterPasses("", [bad, bad]) == Report(bad) + Report(bad) != Report(bad)
  {
    CleanAfterPassesIff([bad, good]);
    assert [bad, bad][1..] == [bad];
    assert [bad] [1..] == [];
    assert "" + Report(bad) == Report(bad);
    assert AfterPasses("", [bad, bad]) == AfterPasses(Report(bad), [bad])
        == AfterPasses(Report(bad) + Report(bad), []);
    assert |Report(bad) + Report(bad)| > |Report(bad)|;
  }
}
