/**
 * The calendar panel of the main window (LulemeApp/MainWindow.xaml.cs): the detail line shown
 * for a selected day, the highlighting of every day in the check-in history, and the two close
 * buttons. Parsing a history entry as a date (`DateTime.TryParse`) depends on the culture and
 * is passed in as a function.
 */
module Calendar {
  import opened Wrappers
  import opened Progress
  import opened Session
  import opened Text

  // ---------------------------------------------------------------------------------------
  // Calendar dates and their "yyyy-MM-dd" keys (pure)
  // ---------------------------------------------------------------------------------------

  datatype DateParts = DateParts(year: int, month: int, day: int)

  /** The dates a calendar can hold (`DateTime` years run from 1 to 9999). */
  type Date = d: DateParts | 1 <= d.year <= 9999 && 1 <= d.month <= 12 && 1 <= d.day <= 31
    witness DateParts(1, 1, 1)

  /** `date.ToString("yyyy-MM-dd")`: the year in four digits, month and day in two, each
   *  reading back as the date's own field. */
  function DateKey(d: Date): (key: string)
    ensures |key| == 10 && key[4] == '-' && key[7] == '-'
    ensures IsDigits(key[..4]) && IsDigits(key[5..7]) && IsDigits(key[8..])
    ensures DecimalValue(key[..4]) == d.year
    ensures DecimalValue(key[5..7]) == d.month
    ensures DecimalValue(key[8..]) == d.day
  {
    assert Pow10(2) == 100 && Pow10(4) == 10000;
    PaddedValue(d.year, 4);
    PaddedValue(d.month, 2);
    PaddedValue(d.day, 2);
    var key := Padded(d.year, 4) + "-" + Padded(d.month, 2) + "-" + Padded(d.day, 2);
    assert key[..4] == Padded(d.year, 4);
    assert key[5..7] == Padded(d.month, 2);
    assert key[8..] == Padded(d.day, 2);
    key
  }

  /** Different days have different keys, so selecting a day looks up that day alone. */
  lemma DateKeyInjective(a: Date, b: Date)
    requires DateKey(a) == DateKey(b)
    ensures a == b
  {
  }

  // ---------------------------------------------------------------------------------------
  // The detail line of a selected day (pure)
  // ---------------------------------------------------------------------------------------

  const CheckedInNoNote: string := "\n已打卡，但未记录感想。"
  const NotCheckedIn: string := "\n当天未打卡。"
  const HighlightPrompt: string := "点击日期查看记录..."

  /** The heading of a day's detail line when the day has no note. */
  function DayHeading(key: string): string
  {
    "📅 " + key
  }

  /** The text shown for the day `key`: its note when it has one; otherwise a line that names
   *  the day and tells exactly whether it was checked in. */
  function DayDetail(thoughts: map<string, string>, history: seq<string>, key: string): (text: string)
    ensures key in thoughts ==> text == thoughts[key]
    ensures key !in thoughts ==>
      && |text| > |DayHeading(key)| && text[..|DayHeading(key)|] == DayHeading(key)
      && (text == DayHeading(key) + CheckedInNoNote <==> key in history)
      && (text == DayHeading(key) + NotCheckedIn <==> key !in history)
  {
    if key in thoughts then thoughts[key]
    else if key in history then DayHeading(key) + CheckedInNoNote
    else DayHeading(key) + NotCheckedIn
  }

  /** After a note is saved for a day, that day's detail line is the note, and the line of
   *  every other day is what it was. */
  lemma DetailShowsSavedThought(r: Record, key: string, text: string, other: string)
    requires !IsBlank(text) && other != key
    ensures var after := SavedThought(r, key, text).value;
      && DayDetail(after.thoughts, after.history, key) == text
      && DayDetail(after.thoughts, after.history, other) == DayDetail(r.thoughts, r.history, other)
  {
  }

  /** After a check-in on a day without a note, that day's detail line reports the check-in. */
  lemma DetailShowsCheckIn(r: Record, slot: nat, coop: bool, today: string)
    requires slot < |r.slots| && !r.slots[slot] && today !in r.thoughts
    ensures var after := CheckedIn(r, slot, coop, today).value;
      DayDetail(after.thoughts, after.history, today) == DayHeading(today) + CheckedInNoNote
  {
  }

  // ---------------------------------------------------------------------------------------
  // Highlighted days (pure)
  // ---------------------------------------------------------------------------------------

  /** The dates of the history entries that parse, in history order. */
  function ParsedDates(history: seq<string>, tryParse: string -> Option<Date>): (dates: seq<Date>)
    ensures |dates| <= |history|
  {
    if history == [] then []
    else
      var last := history[|history| - 1];
      ParsedDates(history[..|history| - 1], tryParse)
        + (if tryParse(last).Some? then [tryParse(last).value] else [])
  }

  /** A date is highlighted exactly when some history entry parses to it. */
  lemma {:induction false} ParsedDatesExactly(history: seq<string>, tryParse: string -> Option<Date>, d: Date)
    ensures d in ParsedDates(history, tryParse) <==>
      exists i :: 0 <= i < |history| && tryParse(history[i]) == Some(d)
  {
    if history != [] {
      var init := history[..|history| - 1];
      ParsedDatesExactly(init, tryParse, d);
      if exists i :: 0 <= i < |init| && tryParse(init[i]) == Some(d) {
        var i :| 0 <= i < |init| && tryParse(init[i]) == Some(d);
        assert history[i] == init[i];
      }
      if exists i :: 0 <= i < |history| && tryParse(history[i]) == Some(d) {
        var i :| 0 <= i < |history| && tryParse(history[i]) == Some(d);
        if i < |init| {
          assert init[i] == history[i];
        }
      }
    }
  }

  // ---------------------------------------------------------------------------------------
  // The window
  // ---------------------------------------------------------------------------------------

  class MainWindow {
    /** The data context, set once. */
    const vm: MainViewModel
    /** The calendar's selected (highlighted) dates. */
    var highlighted: seq<Date>

    constructor (file: StoredFile, today: string)
      ensures fresh(vm) && vm.Valid() && vm.today == today && highlighted == []
      ensures vm.currentUser.Snapshot() == Loaded(file, today)
    {
      vm := new MainViewModel(file, today);
      highlighted := [];
    }

    /** The settings panel's close button. */
    method SettingsClose()
      modifies vm`isSettingsVisible
      ensures !vm.isSettingsVisible
    {
      vm.isSettingsVisible := false;
    }

    /** The calendar panel's close button. */
    method CalendarClose()
      modifies vm`isCalendarVisible
      ensures !vm.isCalendarVisible
    {
      vm.isCalendarVisible := false;
    }

    /** A day is picked in the calendar: its detail line is shown. With no date selected
     *  nothing happens. Only the shown text changes. */
    method ShowSelectedDay(selected: Option<Date>)
      modifies vm`selectedDateThought
      ensures selected.None? ==> vm.selectedDateThought == old(vm.selectedDateThought)
      ensures selected.Some? ==>
        vm.selectedDateThought ==
          DayDetail(vm.currentUser.dailyThoughts, vm.currentUser.checkInHistory, DateKey(selected.value))
    {
      if selected.Some? {
        var key := DateKey(selected.value);
        if key in vm.currentUser.dailyThoughts {
          vm.selectedDateThought := vm.currentUser.dailyThoughts[key];
        } else {
          var isCheckedIn := key in vm.currentUser.checkInHistory;
          if isCheckedIn {
            vm.selectedDateThought := DayHeading(key) + CheckedInNoNote;
          } else {
            vm.selectedDateThought := DayHeading(key) + NotCheckedIn;
          }
        }
      }
    }

    /** On a property change while the calendar is visible: the highlighted dates are rebuilt
     *  from the history and the detail line is reset; otherwise nothing changes. */
    method RefreshHighlights(tryParse: string -> Option<Date>)
      modifies this`highlighted, vm`selectedDateThought
      ensures !vm.isCalendarVisible ==> unchanged(this) && unchanged(vm)
      ensures vm.isCalendarVisible ==>
        && highlighted == ParsedDates(vm.currentUser.checkInHistory, tryParse)
        && vm.selectedDateThought == HighlightPrompt
    {
      if vm.isCalendarVisible {
        var history := vm.currentUser.checkInHistory;
        highlighted := [];
        for i := 0 to |history|
          invariant highlighted == ParsedDates(history[..i], tryParse)
        {
          assert history[..i + 1][..i] == history[..i];
          var date := tryParse(history[i]);
          if date.Some? {
            highlighted := highlighted + [date.value];
          }
        }
        assert history[..|history|] == history;
        vm.selectedDateThought := HighlightPrompt;
      }
    }
  }
}
