/** The workflow page: seven numbered phase cards in alternating layout that fade in as
    they scroll into view, remembered in `visiblePhases`. */
module Workflow {
  import Phone

  datatype Step = Step(id: nat, title: string)

  const WorkflowSteps: seq<Step> := [
    Step(1, "Client Discovery & In-Person Meeting"),
    Step(2, "Post-Payment & Onboarding"),
    Step(3, "Content Planning"),
    Step(4, "Content Production"),
    Step(5, "Execution & Posting"),
    Step(6, "Performance Tracking"),
    Step(7, "Review & Reporting")
  ]

  /** The steps are numbered 1..7 in order, so ids are ascending and distinct. */
  lemma StepIds()
    ensures |WorkflowSteps| == 7
    ensures forall i :: 0 <= i < |WorkflowSteps| ==> WorkflowSteps[i].id == i + 1
    ensures forall i, j :: 0 <= i < j < |WorkflowSteps| ==> WorkflowSteps[i].id < WorkflowSteps[j].id
  {
  }

  predicate NoDuplicates(s: seq<int>) {
    forall i, j :: 0 <= i < j < |s| ==> s[i] != s[j]
  }

  /** The functional update `prev.includes(id) ? prev : [...prev, id]`. */
  function AddIfAbsent(prev: seq<int>, id: int): (r: seq<int>)
    ensures id in r
    ensures forall x :: x in r <==> x in prev || x == id
    ensures |prev| <= |r| <= |prev| + 1 && r[..|prev|] == prev
    ensures id in prev ==> r == prev
    ensures NoDuplicates(prev) ==> NoDuplicates(r)
  {
    if id in prev then prev else prev + [id]
  }

  /** One report of the intersection observer about one card. */
  datatype Entry = Entry(isIntersecting: bool, dataId: int)

  /** The list after the observer callback's `forEach` over `entries`. */
  function Observe(prev: seq<int>, entries: seq<Entry>): (r: seq<int>)
    ensures |r| <= |prev| + |entries|
    decreases |entries|
  {
    if entries == [] then prev
    else
      var last := entries[|entries| - 1];
      var before := Observe(prev, entries[..|entries| - 1]);
      if last.isIntersecting then AddIfAbsent(before, last.dataId) else before
  }

  /** Observation only appends: a card once shown stays shown, in its place. */
  lemma {:induction false} ObserveExtends(prev: seq<int>, entries: seq<Entry>)
    ensures |Observe(prev, entries)| >= |prev|
    ensures Observe(prev, entries)[..|prev|] == prev
    decreases |entries|
  {
    if entries != [] {
      ObserveExtends(prev, entries[..|entries| - 1]);
    }
  }

  /** However the observer reports, the list never holds an id twice. */
  lemma {:induction false} ObserveNoDuplicates(prev: seq<int>, entries: seq<Entry>)
    requires NoDuplicates(prev)
    ensures NoDuplicates(Observe(prev, entries))
    decreases |entries|
  {
    if entries != [] {
      ObserveNoDuplicates(prev, entries[..|entries| - 1]);
    }
  }

  /** Exactly the intersecting ids are added. */
  lemma {:induction false} ObserveMembers(prev: seq<int>, entries: seq<Entry>, x: int)
    ensures x in Observe(prev, entries) <==> x in prev || Reported(entries, x)
    decreases |entries|
  {
    if entries != [] {
      var n := |entries| - 1;
      ObserveMembers(prev, entries[..n], x);
      ReportedSplit(entries, x);
    }
  }

  /** Some intersecting entry in `entries` names `x`. */
  predicate Reported(entries: seq<Entry>, x: int) {
    exists k :: 0 <= k < |entries| && entries[k] == Entry(true, x)
  }

  lemma ReportedSplit(entries: seq<Entry>, x: int)
    requires entries != []
    ensures Reported(entries, x) <==>
              Reported(entries[..|entries| - 1], x) || entries[|entries| - 1] == Entry(true, x)
  {
    var n := |entries| - 1;
    if Reported(entries, x) {
      var k :| 0 <= k < |entries| && entries[k] == Entry(true, x);
      if k < n {
        assert entries[..n][k] == entries[k];
      }
    }
    if Reported(entries[..n], x) {
      var k :| 0 <= k < n && entries[..n][k] == Entry(true, x);
      assert entries[k] == entries[..n][k];
    }
  }

  function DigitChar(d: nat): (c: char)
    requires d < 10
    ensures '0' <= c <= '9' && c as int - '0' as int == d
  {
    (d + '0' as int) as char
  }

  /** `String(n)` for a non-negative integer: its decimal digits, no leading zero. */
  function DecimalString(n: nat): (r: string)
    ensures |r| >= 1 && Phone.AllDigits(r)
  {
    if n < 10 then [DigitChar(n)]
    else DecimalString(n / 10) + [DigitChar(n % 10)]
  }

  /** The number a string of decimal digits denotes. */
  function DecimalValue(s: string): nat
    requires Phone.AllDigits(s)
  {
    if s == [] then 0
    else DecimalValue(s[..|s| - 1]) * 10 + (s[|s| - 1] as int - '0' as int)
  }

  /** Reading back the digits gives the number. */
  lemma {:induction false} DecimalRoundTrip(n: nat)
    ensures DecimalValue(DecimalString(n)) == n
  {
    if n >= 10 {
      var s := DecimalString(n);
      assert s[..|s| - 1] == DecimalString(n / 10);
      DecimalRoundTrip(n / 10);
    }
  }

  /** A leading zero does not change the value. */
  lemma {:induction false} ZeroPadded(s: string)
    requires Phone.AllDigits(s)
    ensures DecimalValue("0" + s) == DecimalValue(s)
    decreases |s|
  {
    if s != [] {
      var t := "0" + s;
      assert t[..|t| - 1] == "0" + s[..|s| - 1];
      ZeroPadded(s[..|s| - 1]);
    }
  }

  /** A number of two or more digits is written without a leading zero. */
  lemma {:induction false} LeadingDigit(n: nat)
    requires n >= 10
    ensures DecimalString(n)[0] != '0'
  {
    if n / 10 >= 10 {
      LeadingDigit(n / 10);
    }
  }

  /** The big number on a card: `id < 10 ? "0" + id : id`. It always has at least two
      digits and reads back as the id. */
  function StepLabel(id: nat): (r: string)
    ensures |r| >= 2 && Phone.AllDigits(r)
    ensures DecimalValue(r) == id
    ensures id < 10 <==> r[0] == '0'
    ensures id < 10 ==> |r| == 2
  {
    var digits := DecimalString(id);
    DecimalRoundTrip(id);
    if id < 10 then
      ZeroPadded(digits);
      "0" + digits
    else
      LeadingDigit(id);
      digits
  }

  /** The cards' layout: `index % 2 === 0` gives `md:flex-row-reverse`, otherwise `md:flex-row`. */
  predicate RowReverse(index: nat) {
    index % 2 == 0
  }

  /** Layouts alternate from card to card, the first card reversed. */
  lemma LayoutAlternates(index: nat)
    ensures RowReverse(0)
    ensures RowReverse(index) != RowReverse(index + 1)
  {
  }

  /** The page's `visiblePhases` state. */
  class Page {
    var visiblePhases: seq<int>

    ghost predicate Valid()
      reads this
    {
      NoDuplicates(visiblePhases)
    }

    constructor ()
      ensures Valid() && visiblePhases == []
    {
      visiblePhases := [];
    }

    /** The observer callback: `entries.forEach`, each intersecting entry adding its id
        through the functional updater. */
    method OnIntersection(entries: seq<Entry>)
      requires Valid()
      modifies this
      ensures Valid()
      ensures visiblePhases == Observe(old(visiblePhases), entries)
      ensures |visiblePhases| >= |old(visiblePhases)|
      ensures visiblePhases[..|old(visiblePhases)|] == old(visiblePhases)
      ensures forall x :: x in visiblePhases <==> x in old(visiblePhases) || Reported(entries, x)
    {
      var k := 0;
      while k < |entries|
        invariant 0 <= k <= |entries|
        invariant visiblePhases == Observe(old(visiblePhases), entries[..k])
        invariant Valid()
      {
        assert entries[..k + 1][..k] == entries[..k];
        var entry := entries[k];
        if entry.isIntersecting {
          var id := entry.dataId;
          visiblePhases := if id in visiblePhases then visiblePhases else visiblePhases + [id];
        }
        k := k + 1;
      }
      assert entries[..k] == entries;
      ObserveExtends(old(visiblePhases), entries);
      forall x
        ensures x in visiblePhases <==> x in old(visiblePhases) || Reported(entries, x)
      {
        ObserveMembers(old(visiblePhases), entries, x);
      }
    }

    /** A card is faded in exactly when its id has been observed. */
    predicate IsCardVisible(step: Step)
      reads this
    {
      step.id in visiblePhases
    }
  }
}
