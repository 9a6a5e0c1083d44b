/** The shared date-range filter: a form with a start date, an end date and a date type. A
    new start date pulls the end date up to it, and every change of the form is announced
    once both dates are set. Dates are instants in milliseconds since the epoch. */
module DateFilter {
  import opened JsValues

  /** The form's values; `None` is a cleared date. */
  datatype Form = Form(startDate: Option<int>, endDate: Option<int>, dateType: string)

  /** An announced range. */
  datatype Range = Range(startDate: int, endDate: int, dateType: string)

  /** A date as JavaScript's `>` sees it: its time value, and `null` as 0. */
  function AsNumber(d: Option<int>): int
  {
    if d.Some? then d.value else 0
  }

  /** What one change of the form announces: the whole form, when both dates are set. */
  function Announce(f: Form): (r: seq<Range>)
    ensures |r| <= 1
    ensures |r| == 1 <==> f.startDate.Some? && f.endDate.Some?
    ensures |r| == 1 ==> r[0] == Range(f.startDate.value, f.endDate.value, f.dateType)
  {
    if f.startDate.Some? && f.endDate.Some? then [Range(f.startDate.value, f.endDate.value, f.dateType)] else []
  }

  /** `clearEndDate` on a form: the end date becomes the start date when the start is later. */
  function Clamp(f: Form): (g: Form)
    ensures AsNumber(g.endDate) >= AsNumber(g.startDate)
    ensures g.startDate == f.startDate && g.dateType == f.dateType
    ensures AsNumber(f.startDate) <= AsNumber(f.endDate) ==> g == f
  {
    if AsNumber(f.startDate) > AsNumber(f.endDate) then f.(endDate := f.startDate) else f
  }

  /** A cleared end date is replaced by any start date after the epoch. */
  lemma ClearedEndTakesStart(f: Form)
    requires f.endDate.None? && f.startDate.Some? && f.startDate.value > 0
    ensures Clamp(f).endDate == f.startDate
  {
  }

  /** Clamping twice is clamping once. */
  lemma ClampIdempotent(f: Form)
    ensures Clamp(Clamp(f)) == Clamp(f)
  {
  }

  /** A new start date patched into a form: the start's own change handler clamps the end
      date, so the form ends up clamped. */
  function WithStart(f: Form, v: Option<int>): (g: Form)
    ensures g.startDate == v && g.dateType == f.dateType
    ensures AsNumber(g.endDate) >= AsNumber(g.startDate)
    ensures AsNumber(v) <= AsNumber(f.endDate) ==> g.endDate == f.endDate
  {
    Clamp(f.(startDate := v))
  }

  /** What a new start date announces: the clamp, when it moves the end date, is a change
      of the form announced as it happens, then the start date's own change is; both carry
      the final form. */
  function StartAnnouncements(f: Form, v: Option<int>): (r: seq<Range>)
    ensures AsNumber(v) <= AsNumber(f.endDate) ==> r == Announce(WithStart(f, v))
    ensures |r| <= 2
  {
    var g := WithStart(f, v);
    if AsNumber(v) > AsNumber(f.endDate) then Announce(g) + Announce(g) else Announce(g)
  }

  /** The form after `ngOnChanges` patches the changed inputs into it: the date type first,
      then the start date (with its clamp), then the end date. */
  function Patch(f: Form, changedType: bool, newType: string, changedStart: bool, newStart: Option<int>,
                 changedEnd: bool, newEnd: Option<int>): Form
  {
    var f1 := if changedType then f.(dateType := newType) else f;
    var f2 := if changedStart then WithStart(f1, newStart) else f1;
    if changedEnd then f2.(endDate := newEnd) else f2
  }

  /** What `ngOnChanges` announces: each patch in turn, as the form's own handlers do. */
  function PatchAnnouncements(f: Form, changedType: bool, newType: string, changedStart: bool, newStart: Option<int>,
                              changedEnd: bool, newEnd: Option<int>): seq<Range>
  {
    var f1 := if changedType then f.(dateType := newType) else f;
    var f2 := if changedStart then WithStart(f1, newStart) else f1;
    var f3 := if changedEnd then f2.(endDate := newEnd) else f2;
    (if changedType then Announce(f1) else []) +
    (if changedStart then StartAnnouncements(f1, newStart) else []) +
    (if changedEnd then Announce(f3) else [])
  }

  /** Only the changed inputs reach the form: an input that did not change keeps the form's
      value, except that a new start date may pull the end date up to it. A changed input
      shows its new value, unless a later patch overwrites it. */
  lemma PatchOnlyChanged(f: Form, changedType: bool, newType: string, changedStart: bool, newStart: Option<int>,
                         changedEnd: bool, newEnd: Option<int>)
    ensures var g := Patch(f, changedType, newType, changedStart, newStart, changedEnd, newEnd);
      g.dateType == (if changedType then newType else f.dateType) &&
      g.startDate == (if changedStart then newStart else f.startDate) &&
      (changedEnd ==> g.endDate == newEnd) &&
      (!changedEnd && !changedStart ==> g.endDate == f.endDate) &&
      (!changedEnd && changedStart ==> g.endDate == Clamp(f.(startDate := newStart)).endDate)
  {
  }

  /** Nothing changed: the form stays and nothing is announced. */
  lemma PatchNothing(f: Form, newType: string, newStart: Option<int>, newEnd: Option<int>)
    ensures Patch(f, false, newType, false, newStart, false, newEnd) == f
    ensures PatchAnnouncements(f, false, newType, false, newStart, false, newEnd) == []
  {
  }

  /** A single changed input other than a clamping start date announces the final form once
      when both its dates are set, and nothing otherwise. */
  lemma SingleChangeAnnouncesOnce(f: Form, changedType: bool, newType: string, changedStart: bool,
                                   newStart: Option<int>, changedEnd: bool, newEnd: Option<int>)
    requires (if changedType then 1 else 0) + (if changedStart then 1 else 0) + (if changedEnd then 1 else 0) == 1
    requires changedStart ==> AsNumber(newStart) <= AsNumber(f.endDate)
    ensures var g := Patch(f, changedType, newType, changedStart, newStart, changedEnd, newEnd);
      PatchAnnouncements(f, changedType, newType, changedStart, newStart, changedEnd, newEnd) == Announce(g)
  {
  }

  class DateFilterComponent {
    /** The inputs. */
    var startDate: Option<int>
    var endDate: Option<int>
    var dateType: string
    /** The form, once `ngOnInit` has built it. */
    var form: Option<Form>

    /** A fresh filter: `today` and `firstOfMonth` stand for the clock. */
    constructor(today: int, firstOfMonth: int)
      ensures startDate == Some(firstOfMonth) && endDate == Some(today)
      ensures dateType == "certificateExpiration" && form.None?
    {
      startDate := Some(firstOfMonth);
      endDate := Some(today);
      dateType := "certificateExpiration";
      form := None;
    }

    /** `ngOnInit`: the form starts from the inputs as they are; building it announces
        nothing. */
    method NgOnInit()
      modifies this
      ensures form == Some(Form(startDate, endDate, dateType))
      ensures startDate == old(startDate) && endDate == old(endDate) && dateType == old(dateType)
    {
      form := Some(Form(startDate, endDate, dateType));
    }

    /** `clearEndDate`: afterwards the end date is never before the start date. */
    method ClearEndDate()
      requires form.Some?
      modifies this
      ensures form == Some(Clamp(old(form.value)))
      ensures AsNumber(form.value.endDate) >= AsNumber(form.value.startDate)
      ensures startDate == old(startDate) && endDate == old(endDate) && dateType == old(dateType)
    {
      var f := form.value;
      if AsNumber(f.startDate) > AsNumber(f.endDate) {
        form := Some(f.(endDate := f.startDate));
      }
    }

    /** A new start date in the form: its own change handler clamps the end date first
        (the clamp is a change of the form too, announced as it happens), then the change
        of the start date is announced. Every announcement carries the final form. */
    method SetStartDate(v: Option<int>) returns (announced: seq<Range>)
      requires form.Some?
      modifies this
      ensures form == Some(WithStart(old(form.value), v))
      ensures AsNumber(form.value.endDate) >= AsNumber(form.value.startDate)
      ensures announced == StartAnnouncements(old(form.value), v)
      ensures startDate == old(startDate) && endDate == old(endDate) && dateType == old(dateType)
    {
      var before := form.value.(startDate := v);
      form := Some(before);
      ClearEndDate();
      if form.value != before {
        announced := Announce(form.value) + Announce(form.value);
      } else {
        announced := Announce(form.value);
      }
    }

    /** A new end date in the form: announced, and not clamped. */
    method SetEndDate(v: Option<int>) returns (announced: seq<Range>)
      requires form.Some?
      modifies this
      ensures form == Some(old(form.value).(endDate := v))
      ensures announced == Announce(form.value)
      ensures startDate == old(startDate) && endDate == old(endDate) && dateType == old(dateType)
    {
      form := Some(form.value.(endDate := v));
      announced := Announce(form.value);
    }

    /** A new date type in the form: announced. */
    method SetDateType(t: string) returns (announced: seq<Range>)
      requires form.Some?
      modifies this
      ensures form == Some(old(form.value).(dateType := t))
      ensures announced == Announce(form.value)
      ensures startDate == old(startDate) && endDate == old(endDate) && dateType == old(dateType)
    {
      form := Some(form.value.(dateType := t));
      announced := Announce(form.value);
    }

    /** `ngOnChanges`: the changed inputs take their new values; once the form exists, only
        the changed ones are patched into it, the date type first, then the start date (with
        its clamp), then the end date. Before the form exists nothing is announced. */
    method NgOnChanges(changedType: bool, newType: string, changedStart: bool, newStart: Option<int>,
                       changedEnd: bool, newEnd: Option<int>) returns (announced: seq<Range>)
      modifies this
      ensures dateType == (if changedType then newType else old(dateType))
      ensures startDate == (if changedStart then newStart else old(startDate))
      ensures endDate == (if changedEnd then newEnd else old(endDate))
      ensures old(form).None? ==> form.None? && announced == []
      ensures old(form).Some? ==>
        form == Some(Patch(old(form.value), changedType, newType, changedStart, newStart, changedEnd, newEnd))
      ensures old(form).Some? ==>
        announced == PatchAnnouncements(old(form.value), changedType, newType, changedStart, newStart, changedEnd, newEnd)
    {
      if changedType { dateType := newType; }
      if changedStart { startDate := newStart; }
      if changedEnd { endDate := newEnd; }
      announced := [];
      if form.Some? {
        if changedType {
          var a := SetDateType(dateType);
          announced := announced + a;
        }
        if changedStart {
          var a := SetStartDate(startDate);
          announced := announced + a;
        }
        if changedEnd {
          var a := SetEndDate(endDate);
          announced := announced + a;
        }
      }
    }
  }
}
