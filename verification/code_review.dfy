/**
 * The code-review exercise: the reviewer clicks a line of the listing, fills in an issue
 * form, and builds a list of annotations; a clock shows the time spent.
 */
module CodeReview {
  import opened Optional
  import opened Seqs
  import opened Text

  datatype Severity = Low | Medium | High | Critical

  /** One issue the reviewer found. */
  datatype Annotation = Annotation(
    id: string, line: int, issueType: string, severity: Severity,
    description: string, suggestion: string)

  /** The issue form, a partial annotation: every field may be missing. */
  datatype Draft = Draft(
    issueType: Option<string>, severity: Option<Severity>,
    description: Option<string>, suggestion: Option<string>, line: Option<int>)

  /** What the form holds when it is opened for the first time and after each submission. */
  const DefaultDraft: Draft := Draft(Some("bug"), Some(Medium), Some(""), Some(""), None)

  /** An entry of the issue-type catalogue: value, label (`caption`, as `label` is a Dafny keyword) and colour; its icon is not modelled. */
  datatype IssueType = IssueType(value: string, caption: string, color: string)

  const IssueTypes: seq<IssueType> := [
    IssueType("security", "Security Vulnerability", "text-red-600"),
    IssueType("performance", "Performance Issue", "text-yellow-600"),
    IssueType("bug", "Bug/Logic Error", "text-red-500"),
    IssueType("maintainability", "Maintainability", "text-blue-600"),
    IssueType("naming", "Naming Convention", "text-purple-600"),
    IssueType("duplication", "Code Duplication", "text-orange-600"),
    IssueType("error_handling", "Error Handling", "text-red-600"),
    IssueType("resource_management", "Resource Management", "text-green-600"),
    IssueType("thread_safety", "Thread Safety", "text-indigo-600"),
    IssueType("architecture", "Architecture/Design", "text-gray-600")
  ]

  /** The position of the first catalogue entry with the given value, if any. */
  function FindIssueType(types: seq<IssueType>, value: string): (r: Option<nat>)
    ensures r.Some? ==>
      r.value < |types| && types[r.value].value == value &&
      forall j :: 0 <= j < r.value ==> types[j].value != value
    ensures r.None? ==> forall j :: 0 <= j < |types| ==> types[j].value != value
  {
    if types == [] then None
    else if types[0].value == value then Some(0)
    else match FindIssueType(types[1..], value)
      case None => None
      case Some(k) => Some(k + 1)
  }

  /** `getIssueTypeInfo(type)`: the catalogue entry for `type`, the first entry for an unknown type. */
  function IssueTypeInfo(value: string): (r: IssueType)
    ensures r in IssueTypes
    ensures (exists j :: 0 <= j < |IssueTypes| && IssueTypes[j].value == value) ==> r.value == value
    ensures (forall j :: 0 <= j < |IssueTypes| ==> IssueTypes[j].value != value) ==> r == IssueTypes[0]
  {
    match FindIssueType(IssueTypes, value)
    case Some(k) => IssueTypes[k]
    case None => IssueTypes[0]
  }

  /** The catalogue values are distinct, so each value names exactly one entry. */
  lemma IssueTypeValuesDistinct()
    ensures forall i, j :: 0 <= i < j < |IssueTypes| ==> IssueTypes[i].value != IssueTypes[j].value
  {
  }

  /** The draft's default type is in the catalogue and shows as a logic error. */
  lemma DefaultIssueTypeInfo()
    ensures IssueTypeInfo("bug") == IssueType("bug", "Bug/Logic Error", "text-red-500")
  {
    assert IssueTypes[2].value == "bug";
  }

  /** A type outside the catalogue shows as a security vulnerability. */
  lemma UnknownIssueTypeInfo(value: string)
    requires forall j :: 0 <= j < |IssueTypes| ==> IssueTypes[j].value != value
    ensures IssueTypeInfo(value).caption == "Security Vulnerability"
  {
  }

  /** The seconds of a clock display: two digits, tens then units, that read as `secs`. */
  function SecondsField(secs: nat): (r: string)
    requires secs < 60
    ensures |r| == 2 && forall i :: 0 <= i < |r| ==> IsDigit(r[i])
    ensures DecimalValue(r) == secs
  {
    DigitPairValue(secs / 10, secs % 10);
    [DigitChar(secs / 10), DigitChar(secs % 10)]
  }

  /** The seconds field is `secs.toString().padStart(2, '0')`. */
  lemma SecondsFieldIsPadded(secs: nat)
    requires secs < 60
    ensures SecondsField(secs) == PadStart(DecimalString(secs), 2, '0')
  {
    if secs < 10 {
      PadOneDigit(secs);
    } else {
      TwoDigits(secs);
    }
  }

  lemma PadOneDigit(secs: nat)
    requires secs < 10
    ensures PadStart(DecimalString(secs), 2, '0') == [DigitChar(0), DigitChar(secs)]
  {
    var d := DigitChar(secs);
    assert DecimalString(secs) == [d];
    assert PadStart([d], 2, '0') == PadStart(['0', d], 2, '0');
  }

  lemma TwoDigits(n: nat)
    requires 10 <= n < 100
    ensures DecimalString(n) == [DigitChar(n / 10), DigitChar(n % 10)]
    ensures PadStart(DecimalString(n), 2, '0') == DecimalString(n)
  {
    assert DecimalString(n / 10) == [DigitChar(n / 10)];
  }

  lemma DigitPairValue(tens: nat, units: nat)
    requires tens < 10 && units < 10
    ensures DecimalValue([DigitChar(tens), DigitChar(units)]) == tens * 10 + units
  {
    var t, u := DigitChar(tens), DigitChar(units);
    var s := [t, u];
    assert s[..1] == [t] && [t][..0] == [];
    assert DecimalValue([t]) == DecimalValue([]) * 10 + tens;
    assert DecimalValue(s) == DecimalValue([t]) * 10 + units;
  }

  /** A clock display: the minutes, a colon, the seconds field. */
  function Clock(minutes: nat, secs: nat): (r: string)
    requires secs < 60
    ensures |r| >= 4 && r[|r| - 3] == ':'
    ensures forall i :: 0 <= i < |r| && i != |r| - 3 ==> IsDigit(r[i])
  {
    DecimalString(minutes) + ":" + SecondsField(secs)
  }

  /** Whole minutes and remaining seconds: `Math.floor(seconds / 60)` and `seconds % 60`. */
  function MinutesAndSeconds(seconds: nat): (r: (nat, nat))
    ensures r.1 < 60 && r.0 * 60 + r.1 == seconds
    decreases seconds
  {
    if seconds < 60 then (0, seconds)
    else
      var (minutes, secs) := MinutesAndSeconds(seconds - 60);
      (minutes + 1, secs)
  }

  /** The split is the floor quotient and the remainder by 60. */
  lemma MinutesAndSecondsIsDivMod(seconds: nat)
    ensures MinutesAndSeconds(seconds) == (seconds / 60, seconds % 60)
  {
    var (minutes, secs) := MinutesAndSeconds(seconds);
    assert seconds == minutes * 60 + secs && 0 <= secs < 60;
  }

  /** `formatTime(seconds)`: whole minutes, a colon, and the remaining seconds as two digits. */
  function FormatTime(seconds: nat): (r: string)
    ensures |r| >= 4 && r[|r| - 3] == ':'
    ensures forall i :: 0 <= i < |r| && i != |r| - 3 ==> IsDigit(r[i])
  {
    var (minutes, secs) := MinutesAndSeconds(seconds);
    Clock(minutes, secs)
  }

  /** The display is `${Math.floor(seconds / 60)}:${(seconds % 60).toString().padStart(2, '0')}`. */
  lemma FormatTimeIsTemplate(seconds: nat)
    ensures FormatTime(seconds) == DecimalString(seconds / 60) + ":" + PadStart(DecimalString(seconds % 60), 2, '0')
  {
    MinutesAndSecondsIsDivMod(seconds);
    SecondsFieldIsPadded(seconds % 60);
  }

  /** Reads a clock display back: the digits before the colon are minutes, the two after it seconds. */
  function ParseTime(t: string): Option<nat>
  {
    if |t| >= 4 && t[|t| - 3] == ':' && forall i :: 0 <= i < |t| && i != |t| - 3 ==> IsDigit(t[i]) then
      var mins, secs := t[..|t| - 3], t[|t| - 2..];
      assert forall i :: 0 <= i < |mins| ==> IsDigit(mins[i]) by {
        forall i | 0 <= i < |mins| ensures IsDigit(mins[i]) { assert mins[i] == t[i]; }
      }
      assert forall i :: 0 <= i < |secs| ==> IsDigit(secs[i]) by {
        forall i | 0 <= i < |secs| ensures IsDigit(secs[i]) { assert secs[i] == t[|t| - 2 + i]; }
      }
      Some(DecimalValue(mins) * 60 + DecimalValue(secs))
    else None
  }

  /** Reading back digits, a colon and two digits gives the minutes and seconds they spell. */
  lemma ParseFields(mins: string, secs: string)
    requires |mins| >= 1 && |secs| == 2
    requires forall i :: 0 <= i < |mins| ==> IsDigit(mins[i])
    requires forall i :: 0 <= i < |secs| ==> IsDigit(secs[i])
    ensures ParseTime(mins + ":" + secs) == Some(DecimalValue(mins) * 60 + DecimalValue(secs))
  {
    var t := mins + ":" + secs;
    assert t[..|t| - 3] == mins;
    assert t[|t| - 2..] == secs;
    forall i | 0 <= i < |t| && i != |t| - 3 ensures IsDigit(t[i]) {
      if i < |mins| {
        assert t[i] == mins[i];
      } else {
        assert t[i] == secs[i - |mins| - 1];
      }
    }
  }

  /** Reading a clock display back gives its minutes and seconds. */
  lemma ClockRoundTrip(minutes: nat, secs: nat)
    requires secs < 60
    ensures ParseTime(Clock(minutes, secs)) == Some(minutes * 60 + secs)
  {
    ParseFields(DecimalString(minutes), SecondsField(secs));
    DecimalRoundTrip(minutes);
  }

  /** The display determines the time: reading it back gives the seconds it was made from. */
  lemma FormatTimeRoundTrip(seconds: nat)
    ensures ParseTime(FormatTime(seconds)) == Some(seconds)
  {
    var split := MinutesAndSeconds(seconds);
    assert FormatTime(seconds) == Clock(split.0, split.1);
    ClockRoundTrip(split.0, split.1);
  }

  lemma ClockExampleMinutes()
    ensures Clock(1, 15) == "1:15"
  {
    assert DecimalString(1) == "1" by {
      assert DigitChar(1) == '1';
    }
    assert SecondsField(15) == "15" by {
      assert DigitChar(1) == '1' && DigitChar(5) == '5';
    }
    calc {
      Clock(1, 15);
      DecimalString(1) + ":" + SecondsField(15);
      "1" + ":" + "15";
    }
  }

  lemma ClockExampleSeconds()
    ensures Clock(0, 5) == "0:05"
  {
    assert DecimalString(0) == "0" by {
      assert DigitChar(0) == '0';
    }
    assert SecondsField(5) == "05" by {
      assert DigitChar(0) == '0' && DigitChar(5) == '5';
    }
    calc {
      Clock(0, 5);
      DecimalString(0) + ":" + SecondsField(5);
      "0" + ":" + "05";
    }
  }

  /** 75 seconds show as "1:15". */
  lemma FormatTimeExampleMinutes()
    ensures FormatTime(75) == "1:15"
  {
    assert MinutesAndSeconds(75) == (1, 15) by {
      assert MinutesAndSeconds(15) == (0, 15);
    }
    ClockExampleMinutes();
  }

  /** 5 seconds show as "0:05": the seconds are padded to two digits. */
  lemma FormatTimeExampleSeconds()
    ensures FormatTime(5) == "0:05"
  {
    assert MinutesAndSeconds(5) == (0, 5);
    ClockExampleSeconds();
  }

  /**
   * The annotation `addAnnotation` would add, or None when it returns early: the description
   * and suggestion must be non-empty and a line selected; the type and severity default to
   * "bug" and medium when missing.
   */
  function Submitted(draft: Draft, selectedLine: Option<int>, id: string): (r: Option<Annotation>)
    ensures r.Some? <==>
      draft.description.Some? && draft.description.value != "" &&
      draft.suggestion.Some? && draft.suggestion.value != "" &&
      selectedLine.Some?
    ensures r.Some? ==>
      r.value.id == id && r.value.line == selectedLine.value &&
      r.value.description == draft.description.value && r.value.suggestion == draft.suggestion.value
    ensures r.Some? && draft.issueType.Some? && draft.issueType.value != "" ==> r.value.issueType == draft.issueType.value
    ensures r.Some? && (draft.issueType.None? || draft.issueType.value == "") ==> r.value.issueType == "bug"
    ensures r.Some? ==> r.value.severity == if draft.severity.Some? then draft.severity.value else Medium
  {
    if draft.description.None? || draft.description.value == "" ||
       draft.suggestion.None? || draft.suggestion.value == "" || selectedLine.None?
    then None
    else
      var issueType := if draft.issueType.Some? && draft.issueType.value != "" then draft.issueType.value else "bug";
      var severity := if draft.severity.Some? then draft.severity.value else Medium;
      Some(Annotation(id, selectedLine.value, issueType, severity,
                      draft.description.value, draft.suggestion.value))
  }

  /** A freshly reset form can never be submitted: its description is empty. */
  lemma DefaultDraftIsNotSubmittable(selectedLine: Option<int>, id: string)
    ensures Submitted(DefaultDraft, selectedLine, id).None?
  {
  }

  /** `annotations.filter(a => a.id !== id)`. */
  function RemoveById(annotations: seq<Annotation>, id: string): (r: seq<Annotation>)
    ensures forall i :: 0 <= i < |r| ==> r[i].id != id
    ensures forall a {:trigger multiset(r)[a]} :: multiset(r)[a] == if a.id == id then 0 else multiset(annotations)[a]
    ensures IsSubsequence(r, annotations)
    ensures (forall i :: 0 <= i < |annotations| ==> annotations[i].id != id) ==> r == annotations
  {
    Filter(annotations, (a: Annotation) => a.id != id)
  }

  /** Removing an annotation just added, under an id no earlier annotation has, undoes the addition. */
  lemma RemoveUndoesAdd(annotations: seq<Annotation>, a: Annotation)
    requires forall i :: 0 <= i < |annotations| ==> annotations[i].id != a.id
    ensures RemoveById(annotations + [a], a.id) == annotations
  {
    var p := (x: Annotation) => x.id != a.id;
    FilterAppend(annotations, [a], p);
    assert Filter([a], p) == [];
  }

  /** The review's state as the component holds it. */
  class ReviewSession {
    const readOnly: bool
    var annotations: seq<Annotation>
    var selectedLine: Option<int>
    var showAnnotationForm: bool
    var draft: Draft

    constructor (initialAnnotations: seq<Annotation>, readOnly: bool)
      ensures annotations == initialAnnotations && this.readOnly == readOnly
      ensures selectedLine == None && !showAnnotationForm && draft == DefaultDraft
    {
      annotations := initialAnnotations;
      this.readOnly := readOnly;
      selectedLine := None;
      showAnnotationForm := false;
      draft := DefaultDraft;
    }

    /** `handleLineClick(line)`: select the line, record it in the draft and open the form. */
    method LineClick(line: int)
      modifies this`selectedLine, this`draft, this`showAnnotationForm
      ensures readOnly ==> unchanged(this)
      ensures !readOnly ==>
        selectedLine == Some(line) && draft == old(draft).(line := Some(line)) && showAnnotationForm
    {
      if readOnly {
        return;
      }
      selectedLine := Some(line);
      draft := draft.(line := Some(line));
      showAnnotationForm := true;
    }

    method SetIssueType(value: string)
      modifies this`draft
      ensures draft == old(draft).(issueType := Some(value))
    {
      draft := draft.(issueType := Some(value));
    }

    method SetSeverity(value: Severity)
      modifies this`draft
      ensures draft == old(draft).(severity := Some(value))
    {
      draft := draft.(severity := Some(value));
    }

    method SetDescription(value: string)
      modifies this`draft
      ensures draft == old(draft).(description := Some(value))
    {
      draft := draft.(description := Some(value));
    }

    method SetSuggestion(value: string)
      modifies this`draft
      ensures draft == old(draft).(suggestion := Some(value))
    {
      draft := draft.(suggestion := Some(value));
    }

    /** The form's Cancel button closes it; the draft and the selected line stay. */
    method CancelForm()
      modifies this`showAnnotationForm
      ensures !showAnnotationForm
    {
      showAnnotationForm := false;
    }

    /**
     * `addAnnotation`, with `id` the handler's clock reading: append the drafted annotation,
     * close and reset the form and clear the selected line; nothing when the draft is incomplete.
     */
    method AddAnnotation(id: string)
      modifies this`annotations, this`showAnnotationForm, this`draft, this`selectedLine
      ensures Submitted(old(draft), old(selectedLine), id).None? ==> unchanged(this)
      ensures Submitted(old(draft), old(selectedLine), id).Some? ==>
        annotations == old(annotations) + [Submitted(old(draft), old(selectedLine), id).value] &&
        !showAnnotationForm && draft == DefaultDraft && selectedLine == None
    {
      var a := Submitted(draft, selectedLine, id);
      if a.None? {
        return;
      }
      annotations := annotations + [a.value];
      showAnnotationForm := false;
      draft := DefaultDraft;
      selectedLine := None;
    }

    /** `removeAnnotation(id)`. */
    method RemoveAnnotation(id: string)
      modifies this`annotations
      ensures annotations == RemoveById(old(annotations), id)
    {
      annotations := RemoveById(annotations, id);
    }
  }
}
