/**
 * The session controller (LulemeApp/MainViewModel.cs): it loads the owner's record, holds the
 * friends shown beside it, and carries out the check-in, save-thought, coop and panel toggle
 * actions. The clock is read by the caller: the day key is fixed when the controller is built,
 * the hour is passed to each check-in and the date key to each note save.
 */
module Session {
  import opened Wrappers
  import opened Progress
  import opened Text

  // ---------------------------------------------------------------------------------------
  // Check-in rules (pure)
  // ---------------------------------------------------------------------------------------

  /** The slot of an hour of the day: morning before 12, afternoon before 18, else evening. */
  function SlotOf(hour: int): (slot: nat)
    ensures slot < 3
    ensures slot == 0 <==> hour < 12
    ensures slot == 1 <==> 12 <= hour < 18
    ensures slot == 2 <==> 18 <= hour
  {
    if hour < 12 then 0 else if hour < 18 then 1 else 2
  }

  const BaseReward: Int32 := 100

  /** `(int)(100 * multiplier)` with multiplier 1.5 in coop mode and 1.0 otherwise; both
   *  products are exact in binary floating point, so nothing is lost to the cast. */
  function Reward(coop: bool): (p: Int32)
    ensures coop ==> 2 * p == 3 * BaseReward
    ensures !coop ==> p == BaseReward
  {
    if coop then 150 else 100
  }

  /** The history after a check-in on `day`: the day is appended unless already listed. */
  function AppendIfAbsent(history: seq<string>, day: string): (r: seq<string>)
    ensures day in r
    ensures day in history ==> r == history
    ensures |history| <= |r| <= |history| + 1 && r[..|history|] == history
  {
    if day in history then history else history + [day]
  }

  /** The history after a check-in lists exactly the earlier days and `day`, and a history
   *  without repeats stays without repeats. */
  lemma AppendIfAbsentMembers(history: seq<string>, day: string)
    ensures forall d :: d in AppendIfAbsent(history, day) <==> d in history || d == day
    ensures Distinct(history) ==> Distinct(AppendIfAbsent(history, day))
  {
  }

  /** No entry occurs twice. */
  ghost predicate Distinct(s: seq<string>)
  {
    forall i, j :: 0 <= i < j < |s| ==> s[i] != s[j]
  }

  /**
   * The persisted record after a check-in in `slot` on `today`: None when the slot is already
   * taken (nothing changes), otherwise the record with the reward added, the slot taken and
   * the day in the history.
   */
  function CheckedIn(r: Record, slot: nat, coop: bool, today: string): (result: Option<Record>)
    requires slot < |r.slots|
    ensures result.None? <==> r.slots[slot]
    ensures result.Some? ==>
      var after := result.value;
      && after.points == AddWrapped(r.points, Reward(coop))
      && |after.slots| == |r.slots| && after.slots[slot]
      && (forall k :: 0 <= k < |r.slots| && k != slot ==> after.slots[k] == r.slots[k])
      && after.history == AppendIfAbsent(r.history, today)
      && after.lastCheckInDate == r.lastCheckInDate && after.thoughts == r.thoughts
  {
    if r.slots[slot] then None
    else Some(r.(points := AddWrapped(r.points, Reward(coop)),
                 slots := r.slots[slot := true],
                 history := AppendIfAbsent(r.history, today)))
  }

  /** A reward always changes the points, even when the sum wraps around, so the points setter
   *  always saves. */
  lemma RewardChangesPoints(points: Int32, coop: bool)
    ensures AddWrapped(points, Reward(coop)) != points
  {
  }

  /** Below the `int` limit a check-in adds exactly 100 points, or 150 in coop mode. */
  lemma CheckInReward(r: Record, slot: nat, coop: bool, today: string)
    requires slot < |r.slots| && !r.slots[slot]
    requires r.points <= MaxInt32 - 150
    ensures CheckedIn(r, slot, coop, today).Some?
    ensures CheckedIn(r, slot, coop, today).value.points == r.points + (if coop then 150 else 100)
  {
  }

  /** A second check-in in the same slot on the same day is rejected. */
  lemma SecondCheckInRejected(r: Record, slot: nat, coop1: bool, coop2: bool, today: string)
    requires slot < |r.slots|
    requires CheckedIn(r, slot, coop1, today).Some?
    ensures var after := CheckedIn(r, slot, coop1, today).value;
      slot < |after.slots| && CheckedIn(after, slot, coop2, today).None?
  {
  }

  /** Check-ins in all three slots of a day list the day once in a history without repeats. */
  lemma DayListedOnce(r: Record, coop: bool, today: string)
    requires r.slots == [false, false, false] && Distinct(r.history)
    ensures var r1 := CheckedIn(r, 0, coop, today).value;
      var r2 := CheckedIn(r1, 1, coop, today).value;
      var r3 := CheckedIn(r2, 2, coop, today).value;
      Distinct(r3.history) && today in r3.history && r3.slots == [true, true, true]
      && r3.history[..|r.history|] == r.history
  {
  }

  /** A record saved on an earlier day accepts a check-in in any slot once loaded today. */
  lemma NewDayCheckInAccepted(s: StoredUser, slot: nat, coop: bool, today: string)
    requires s.lastCheckInDate != today && slot < 3
    ensures CheckedIn(Loaded(Parsed(s), today), slot, coop, today).Some?
  {
  }

  /** First run in the morning without coop: 100 points, the morning slot taken, history [today]. */
  lemma FirstMorningCheckIn(today: string)
    ensures CheckedIn(Loaded(NoFile, today), SlotOf(9), false, today)
      == Some(Record(100, [true, false, false], today, [today], map[]))
  {
    assert NoSlots[0 := true] == [true, false, false];
    assert AppendIfAbsent([], today) == [today];
  }

  /**
   * After an unreadable save file the record keeps an empty date, so the next start on the same
   * day rolls the slots over again: a slot already taken today accepts a second check-in.
   */
  lemma UnreadableFileAllowsRepeatCheckIn(slot: nat, coop: bool, today: string)
    requires slot < 3 && today != ""
    ensures var first := CheckedIn(Loaded(Unreadable, today), slot, coop, today).value;
      var reloaded := Loaded(Parsed(Stored(first)), today);
      first.slots[slot] && CheckedIn(reloaded, slot, coop, today).Some?
  {
  }

  const SuccessPrefix: string := "打卡成功 +"

  /** The status line after a successful check-in: the prefix, then the reward in decimal. */
  function SuccessMessage(p: nat): (msg: string)
  {
    SuccessPrefix + Decimal(p)
  }

  /** The status line starts with the prefix, and the digits after it read back as the reward. */
  lemma SuccessMessageShowsReward(p: nat)
    ensures var msg := SuccessMessage(p);
      && |msg| > |SuccessPrefix| && msg[..|SuccessPrefix|] == SuccessPrefix
      && IsDigits(msg[|SuccessPrefix|..]) && DecimalValue(msg[|SuccessPrefix|..]) == p
  {
    DecimalValueOf(p);
    assert SuccessMessage(p)[|SuccessPrefix|..] == Decimal(p);
  }

  // ---------------------------------------------------------------------------------------
  // Note rules (pure)
  // ---------------------------------------------------------------------------------------

  /** The characters .NET's `char.IsWhiteSpace` accepts: the Unicode White_Space set. It holds
   *  for space, tab, the line breaks and the ideographic space, and for no visible ASCII
   *  character. */
  function IsWhiteSpace(c: char): (ws: bool)
    ensures c == ' ' || c == '\t' || c == '\n' || c == '\r' || c == '\U{3000}' ==> ws
    ensures '!' <= c <= '~' ==> !ws
  {
    || '\U{9}' <= c <= '\U{D}' || c == '\U{20}' || c == '\U{85}' || c == '\U{A0}'
    || c == '\U{1680}' || '\U{2000}' <= c <= '\U{200A}' || c == '\U{2028}' || c == '\U{2029}'
    || c == '\U{202F}' || c == '\U{205F}' || c == '\U{3000}'
  }

  /** `string.IsNullOrWhiteSpace` on a non-null string: the empty string is blank, and a
   *  string holding any visible ASCII character is not. */
  function IsBlank(s: string): (blank: bool)
    ensures s == "" ==> blank
    ensures (exists i :: 0 <= i < |s| && '!' <= s[i] <= '~') ==> !blank
  {
    forall i :: 0 <= i < |s| ==> IsWhiteSpace(s[i])
  }

  /**
   * The persisted record after the draft `text` is saved as the note of day `key`: None when
   * the draft is blank (nothing changes), otherwise the record whose notes hold `text` under
   * `key`, replacing any earlier note of that day, with every other note and field kept.
   */
  function SavedThought(r: Record, key: string, text: string): (result: Option<Record>)
    ensures result.None? <==> IsBlank(text)
    ensures result.Some? ==>
      var after := result.value;
      && key in after.thoughts && after.thoughts[key] == text
      && (forall k :: k != key ==>
            && (k in after.thoughts <==> k in r.thoughts)
            && (k in r.thoughts ==> after.thoughts[k] == r.thoughts[k]))
      && |after.thoughts| == (if key in r.thoughts then |r.thoughts| else |r.thoughts| + 1)
      && after.(thoughts := r.thoughts) == r
  {
    if IsBlank(text) then None else Some(r.(thoughts := r.thoughts[key := text]))
  }

  // ---------------------------------------------------------------------------------------
  // Friends
  // ---------------------------------------------------------------------------------------

  /** The point totals of the four friends shown in the list. */
  const FriendPoints: seq<Int32> := [8500, 3400, 0, 15000]

  /** `new User { Points = points }`: a friend record; the setter writes nothing. */
  method NewFriend(points: Int32) returns (f: User)
    ensures fresh(f) && !f.isMe && f.written == [] && f.points == points
  {
    f := new User();
    f.SetPoints(points);
  }

  /** Builds the friend records, then computes each one's level. */
  method MakeFriends() returns (friends: seq<User>)
    ensures |friends| == |FriendPoints|
    ensures forall i :: 0 <= i < |friends| ==>
      && fresh(friends[i]) && !friends[i].isMe && friends[i].written == []
      && friends[i].points == FriendPoints[i] && friends[i].Derived()
  {
    var f0 := NewFriend(8500);
    var f1 := NewFriend(3400);
    var f2 := NewFriend(0);
    var f3 := NewFriend(15000);
    friends := [f0, f1, f2, f3];
    var i := 0;
    while i < |friends|
      invariant 0 <= i <= |friends|
      invariant forall j :: 0 <= j < |friends| ==>
        && fresh(friends[j]) && !friends[j].isMe && friends[j].written == []
        && friends[j].points == FriendPoints[j]
      invariant forall j :: 0 <= j < i ==> friends[j].Derived()
      modifies set j | 0 <= j < |friends| :: friends[j]
    {
      friends[i].CalculateLevel();
      i := i + 1;
    }
  }

  // ---------------------------------------------------------------------------------------
  // The controller
  // ---------------------------------------------------------------------------------------

  const ReadyMessage: string := "准备就绪"
  const SlotTakenMessage: string := "该时段已打卡"
  const ThoughtSavedMessage: string := "感想已保存"
  const CoopOnMessage: string := "好友一起🦌已开启 x1.5"
  const SoloMessage: string := "单人模式"
  const ThoughtPrompt: string := "点击日期查看感想..."

  class MainViewModel {
    var currentUser: User
    var friends: seq<User>
    /** The day key read once, when the controller is built; every check-in records it. */
    const today: string
    var statusMessage: string
    var isSettingsVisible: bool
    var isCalendarVisible: bool
    var isCoopMode: bool
    var currentInputThought: string
    var selectedDateThought: string

    /** The owner's record is well formed, writable, and its level agrees with its points. */
    ghost predicate Valid()
      reads this, currentUser
    {
      currentUser.Valid() && currentUser.isMe && currentUser.Derived()
    }

    /** Loads the owner's record, pre-fills the draft with today's note and builds the friends. */
    constructor (file: StoredFile, today: string)
      ensures Valid() && fresh(currentUser) && fresh(currentUser.dailyCheckInStatus)
      ensures currentUser.Snapshot() == Loaded(file, today) && currentUser.written == []
      ensures this.today == today
      ensures today in currentUser.dailyThoughts ==> currentInputThought == currentUser.dailyThoughts[today]
      ensures today !in currentUser.dailyThoughts ==> currentInputThought == ""
      ensures statusMessage == ReadyMessage && selectedDateThought == ThoughtPrompt
      ensures !isSettingsVisible && !isCalendarVisible && !isCoopMode
      ensures |friends| == |FriendPoints|
      ensures forall i :: 0 <= i < |friends| ==>
        && fresh(friends[i]) && !friends[i].isMe && friends[i].written == []
        && friends[i].points == FriendPoints[i] && friends[i].Derived()
    {
      var user := User.Load(file, today);
      user.CalculateLevel();
      var draft := "";
      if today in user.dailyThoughts {
        draft := user.dailyThoughts[today];
      }
      var fs := MakeFriends();
      currentUser := user;
      friends := fs;
      this.today := today;
      statusMessage := ReadyMessage;
      isSettingsVisible, isCalendarVisible, isCoopMode := false, false, false;
      currentInputThought := draft;
      selectedDateThought := ThoughtPrompt;
    }

    /**
     * The check-in command at `hour`. A taken slot only sets the status line. Otherwise the
     * reward is added through the points setter (which saves once), the slot is taken, today
     * is added to the history if missing, and the record is saved again.
     */
    method CheckIn(hour: int)
      requires Valid()
      modifies this`statusMessage, currentUser.dailyCheckInStatus
      modifies currentUser`points, currentUser`level, currentUser`title, currentUser`titleColor
      modifies currentUser`glowColor, currentUser`checkInHistory, currentUser`written
      ensures Valid() && currentUser == old(currentUser)
      ensures var before := old(currentUser.Snapshot());
        match CheckedIn(before, SlotOf(hour), isCoopMode, today)
        case None =>
          && currentUser.Snapshot() == before && currentUser.written == old(currentUser.written)
          && statusMessage == SlotTakenMessage
        case Some(after) =>
          && currentUser.Snapshot() == after
          && currentUser.written == old(currentUser.written) + [before.(points := after.points), after]
          && statusMessage == SuccessMessage(Reward(isCoopMode))
    {
      var slot := SlotOf(hour);
      if currentUser.dailyCheckInStatus[slot] {
        statusMessage := SlotTakenMessage;
        return;
      }
      ghost var before := currentUser.Snapshot();
      ghost var after := CheckedIn(before, slot, isCoopMode, today).value;
      var p := Reward(isCoopMode);
      var message := SuccessMessage(p);
      RewardChangesPoints(currentUser.points, isCoopMode);
      currentUser.SetPoints(AddWrapped(currentUser.points, p));
      assert currentUser.written == old(currentUser.written) + [before.(points := after.points)];
      currentUser.dailyCheckInStatus[slot] := true;
      assert currentUser.dailyCheckInStatus[..] == after.slots;
      if today !in currentUser.checkInHistory {
        currentUser.checkInHistory := currentUser.checkInHistory + [today];
      }
      assert currentUser.Snapshot() == after;
      currentUser.Save();
      statusMessage := message;
    }

    /**
     * The save-thought command with the clock's day key `dateKey`. A blank draft is ignored;
     * otherwise the note for the key is inserted or replaced, the record saved, and the draft
     * shown as the selected day's note.
     */
    method SaveThought(dateKey: string)
      requires Valid()
      modifies this`statusMessage, this`selectedDateThought, currentUser`dailyThoughts, currentUser`written
      ensures Valid()
      ensures var before := old(currentUser.Snapshot());
        match SavedThought(before, dateKey, currentInputThought)
        case None => unchanged(this) && unchanged(currentUser)
        case Some(after) =>
          && currentUser.Snapshot() == after
          && currentUser.written == old(currentUser.written) + [after]
          && statusMessage == ThoughtSavedMessage && selectedDateThought == currentInputThought
    {
      if IsBlank(currentInputThought) {
        return;
      }
      currentUser.dailyThoughts := currentUser.dailyThoughts[dateKey := currentInputThought];
      currentUser.Save();
      statusMessage := ThoughtSavedMessage;
      selectedDateThought := currentInputThought;
    }

    /** The coop switch: stores the flag and announces the mode; the record is not touched. */
    method SetCoopMode(value: bool)
      modifies this`isCoopMode, this`statusMessage
      ensures isCoopMode == value
      ensures statusMessage == if value then CoopOnMessage else SoloMessage
      ensures unchanged(currentUser)
    {
      isCoopMode := value;
      statusMessage := if value then CoopOnMessage else SoloMessage;
    }

    /** The note draft bound to the input box. */
    method SetCurrentInputThought(value: string)
      modifies this`currentInputThought
      ensures currentInputThought == value
    {
      currentInputThought := value;
    }

    /** Shows or hides the settings panel; two toggles restore the flag. */
    method ToggleSettings()
      modifies this`isSettingsVisible
      ensures isSettingsVisible == !old(isSettingsVisible)
    {
      isSettingsVisible := !isSettingsVisible;
    }

    /** Shows or hides the calendar panel; two toggles restore the flag. */
    method ToggleCalendar()
      modifies this`isCalendarVisible
      ensures isCalendarVisible == !old(isCalendarVisible)
    {
      isCalendarVisible := !isCalendarVisible;
    }
  }
}
