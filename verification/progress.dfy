/**
 * The user's progress record (LulemeApp/User.cs): points, the level and title derived from
 * them, the three daily check-in slots, the check-in history and the daily notes, with the
 * owner-gated save and the load that rolls the slots over to a new day.
 */
module Progress {
  import opened Wrappers

  // ---------------------------------------------------------------------------------------
  // C# `int` arithmetic
  // ---------------------------------------------------------------------------------------

  const MinInt32: int := -0x8000_0000
  const MaxInt32: int := 0x7FFF_FFFF
  const TwoTo32: int := 0x1_0000_0000

  /** The values of a C# `int`. */
  type Int32 = x: int | -0x8000_0000 <= x <= 0x7FFF_FFFF

  /** C#'s unchecked `int` addition: the exact sum, wrapped around modulo 2^32. */
  function AddWrapped(a: Int32, b: Int32): (r: Int32)
    ensures MinInt32 <= a + b <= MaxInt32 ==> r == a + b
    ensures (a + b - r) % TwoTo32 == 0
  {
    var s := a + b;
    if s > MaxInt32 then s - TwoTo32
    else if s < MinInt32 then s + TwoTo32
    else s
  }

  // ---------------------------------------------------------------------------------------
  // Level and title derivation (pure)
  // ---------------------------------------------------------------------------------------

  const PointsPerLevel: int := 100

  /** `Points / 100` with C#'s division, which truncates toward zero. */
  function LevelOf(points: int): (level: int)
    ensures points >= 0 ==> 0 <= level && PointsPerLevel * level <= points < PointsPerLevel * level + PointsPerLevel
    ensures points < 0 ==> level <= 0 && PointsPerLevel * level - PointsPerLevel < points <= PointsPerLevel * level
  {
    if points >= 0 then points / PointsPerLevel else -((-points) / PointsPerLevel)
  }

  /** More points never give a lower level. */
  lemma LevelMonotonic(p: int, q: int)
    requires p <= q
    ensures LevelOf(p) <= LevelOf(q)
  {
  }

  /** Every 100 points earned on top of a non-negative total raise the level by exactly one. */
  lemma LevelStep(p: int, k: nat)
    requires p >= 0
    ensures LevelOf(p + PointsPerLevel * k) == LevelOf(p) + k
  {
  }

  /** The five title bands. */
  datatype Band = Novice | Adept | Proficient | Virtuoso | Legend

  /** The band of a level; the bounds are 10, 30, 60 and 90. */
  function BandOf(level: int): (b: Band)
    ensures b == Novice <==> level < 10
    ensures b == Adept <==> 10 <= level < 30
    ensures b == Proficient <==> 30 <= level < 60
    ensures b == Virtuoso <==> 60 <= level < 90
    ensures b == Legend <==> 90 <= level
  {
    if level < 10 then Novice
    else if level < 30 then Adept
    else if level < 60 then Proficient
    else if level < 90 then Virtuoso
    else Legend
  }

  /** Position of a band in the order of promotion. */
  function Rank(b: Band): (r: nat)
    ensures r < 5
  {
    match b
    case Novice => 0
    case Adept => 1
    case Proficient => 2
    case Virtuoso => 3
    case Legend => 4
  }

  /** A higher level never falls in a lower band. */
  lemma BandMonotonic(l1: int, l2: int)
    requires l1 <= l2
    ensures Rank(BandOf(l1)) <= Rank(BandOf(l2))
  {
  }

  /** The title shown for a band and its two colours (text colour, glow colour). */
  datatype Style = Style(title: string, titleColor: string, glowColor: string)

  /** The title and colours UpdateTitleAndColor assigns for a band. */
  function StyleOf(b: Band): (s: Style)
  {
    match b
    case Novice => Style("🦌界萌新", "#E0E0E0", "#40FFFFFF")
    case Adept => Style("小有所成", "#66FFCC", "#4066FFCC")
    case Proficient => Style("融会贯通", "#33CCFF", "#4033CCFF")
    case Virtuoso => Style("出神入化", "#CC66FF", "#40CC66FF")
    case Legend => Style("🦌神", "#FFD700", "#60FFD700")
  }

  /** The text colour is "#RRGGBB" and the glow "#AARRGGBB". Above the first band the glow is
   *  the text colour behind an alpha byte; the first band glows white. */
  lemma StyleColours(b: Band)
    ensures var s := StyleOf(b);
      && |s.titleColor| == 7 && s.titleColor[0] == '#'
      && |s.glowColor| == 9 && s.glowColor[0] == '#'
      && (b != Novice ==> s.glowColor[3..] == s.titleColor[1..])
      && (b == Novice ==> s.glowColor[3..] == "FFFFFF")
  {
  }

  /** Different bands show different titles, so the title alone tells the band. */
  lemma StyleDistinguishesBands(b1: Band, b2: Band)
    ensures StyleOf(b1).title == StyleOf(b2).title ==> b1 == b2
  {
  }

  /** The style of a freshly constructed record, before any level has been computed. */
  const InitialStyle: Style := Style("🦌界萌新", "#FFFFFF", "#FFFFFF")

  /** The style shown for a points total. */
  function StyleOfPoints(points: int): (s: Style)
    ensures points < 1000 ==> s == StyleOf(Novice)
    ensures points >= 9000 ==> s == StyleOf(Legend)
  {
    StyleOf(BandOf(LevelOf(points)))
  }

  // ---------------------------------------------------------------------------------------
  // The persisted record and what a load produces from the save file (pure)
  // ---------------------------------------------------------------------------------------

  /** What one save writes: the persisted fields of the record. */
  datatype Record = Record(
    points: Int32,
    slots: seq<bool>,
    lastCheckInDate: string,
    history: seq<string>,
    thoughts: map<string, string>)

  const NoSlots: seq<bool> := [false, false, false]

  /** The persisted fields of a freshly constructed record. */
  const DefaultRecord: Record := Record(0, NoSlots, "", [], map[])

  /**
   * A record as the JSON deserializer produces it. A property missing from the file keeps
   * its initial value; a property written as `null` becomes None. A null date compares
   * unequal to today exactly like any stale date, so it is represented by such a date.
   */
  datatype StoredUser = StoredUser(
    points: Int32,
    slots: Option<seq<bool>>,
    lastCheckInDate: string,
    history: Option<seq<string>>,
    thoughts: Option<map<string, string>>)

  /**
   * The save file as Load finds it. `Unreadable` covers a read error, malformed JSON, a
   * number out of `int` range and the JSON literal `null`: in each case Load keeps its
   * default record.
   */
  datatype StoredFile = NoFile | Unreadable | Parsed(user: StoredUser)

  /** The slot flags that Load keeps, as written: the stored array survives when the stored
   *  date is today, whatever its length and even when it is null. */
  function LoadedSlotsAsWritten(slots: Option<seq<bool>>, date: string, today: string): (r: Option<seq<bool>>)
    ensures date != today ==> r == Some(NoSlots)
    ensures date == today ==> r == slots
  {
    if date != today then Some(NoSlots) else slots
  }

  /** A stored file dated today whose slot array is empty: Load keeps the empty array, and the
   *  morning check-in then indexes slot 0 of it. */
  lemma EmptyStoredSlotsSurviveLoad(today: string)
    ensures LoadedSlotsAsWritten(Some([]), today, today) == Some([])
    ensures var slots := LoadedSlotsAsWritten(Some([]), today, today).value;
      !(0 <= 0 < |slots|)
  {
  }

  /** The slot flags Load establishes (corrected): the same flags as written whenever those
   *  have all three slots; a null or too short array is replaced by three open slots. */
  function LoadedSlots(slots: Option<seq<bool>>, date: string, today: string): (r: seq<bool>)
    ensures |r| >= 3
    ensures date != today ==> r == NoSlots
    ensures var w := LoadedSlotsAsWritten(slots, date, today);
      w.Some? && |w.value| >= 3 ==> r == w.value
    ensures var w := LoadedSlotsAsWritten(slots, date, today);
      !(w.Some? && |w.value| >= 3) ==> r == NoSlots
  {
    if date == today && slots.Some? && |slots.value| >= 3 then slots.value else NoSlots
  }

  /** The persisted fields of the record Load returns. */
  function Loaded(file: StoredFile, today: string): (r: Record)
    ensures |r.slots| >= 3
    ensures !file.Unreadable? ==> r.lastCheckInDate == today
  {
    match file
    case NoFile => DefaultRecord.(lastCheckInDate := today)
    case Unreadable => DefaultRecord
    case Parsed(s) =>
      Record(s.points, LoadedSlots(s.slots, s.lastCheckInDate, today), today,
             s.history.GetOr([]), s.thoughts.GetOr(map[]))
  }

  /** A record loaded on a later day than it was saved has all three slots open again and is
   *  dated today; points, history and notes are kept. */
  lemma LoadRollsOver(s: StoredUser, today: string)
    requires s.lastCheckInDate != today
    ensures var r := Loaded(Parsed(s), today);
      r.lastCheckInDate == today && r.slots == [false, false, false] && r.points == s.points
  {
  }

  /** A record saved earlier today keeps its slot flags, all of them, when there are at least
   *  three. */
  lemma LoadKeepsTodaysSlots(s: StoredUser, today: string)
    requires s.lastCheckInDate == today && s.slots.Some? && |s.slots.value| >= 3
    ensures Loaded(Parsed(s), today).slots == s.slots.value
  {
  }

  /** First run: no file gives the default record dated today. An unreadable file gives the
   *  default record with its empty date: no rollover happens on that path. */
  lemma LoadDefaults(today: string)
    ensures Loaded(NoFile, today) == Record(0, [false, false, false], today, [], map[])
    ensures Loaded(Unreadable, today) == Record(0, [false, false, false], "", [], map[])
  {
  }

  /** What a save of `r` reads back as: a save writes every collection, never `null`. */
  function Stored(r: Record): (s: StoredUser)
    ensures s.slots.Some? && s.history.Some? && s.thoughts.Some?
  {
    StoredUser(r.points, Some(r.slots), r.lastCheckInDate, Some(r.history), Some(r.thoughts))
  }

  /** Save then Load: points, history and notes come back unchanged; the slot flags come back
   *  when the day has not changed and are reset when it has. */
  lemma SaveLoadRoundTrip(r: Record, today: string)
    requires |r.slots| >= 3
    ensures var back := Loaded(Parsed(Stored(r)), today);
      && back.points == r.points && back.history == r.history && back.thoughts == r.thoughts
      && back.lastCheckInDate == today
      && back.slots == (if r.lastCheckInDate == today then r.slots else NoSlots)
  {
  }

  // ---------------------------------------------------------------------------------------
  // The record object
  // ---------------------------------------------------------------------------------------

  class User {
    /** True only for the local user's own record: it gates every write. Never persisted. */
    var isMe: bool
    var points: Int32
    var level: int
    var title: string
    var titleColor: string
    var glowColor: string
    /** One flag per slot: morning, afternoon, evening. */
    var dailyCheckInStatus: array<bool>
    var lastCheckInDate: string
    var checkInHistory: seq<string>
    var dailyThoughts: map<string, string>
    /** The snapshots Save has written to the save file, oldest first. */
    ghost var written: seq<Record>

    /** Every slot the check-in can pick exists. */
    ghost predicate Valid()
      reads this
    {
      dailyCheckInStatus.Length >= 3
    }

    /** Level and style agree with the points. */
    ghost predicate Derived()
      reads this
    {
      level == LevelOf(points) && Style(title, titleColor, glowColor) == StyleOfPoints(points)
    }

    /** The persisted fields as they stand. */
    ghost function Snapshot(): Record
      reads this, dailyCheckInStatus
    {
      Record(points, dailyCheckInStatus[..], lastCheckInDate, checkInHistory, dailyThoughts)
    }

    /** A new record with the initial field values (not the owner's). */
    constructor ()
      ensures Valid() && fresh(dailyCheckInStatus)
      ensures !isMe && level == 0 && Style(title, titleColor, glowColor) == InitialStyle
      ensures Snapshot() == DefaultRecord && written == []
    {
      isMe := false;
      points := 0;
      level := 0;
      title, titleColor, glowColor := InitialStyle.title, InitialStyle.titleColor, InitialStyle.glowColor;
      dailyCheckInStatus := new bool[][false, false, false];
      lastCheckInDate := "";
      checkInHistory := [];
      dailyThoughts := map[];
      written := [];
    }

    /** Recomputes title and colours from the level. */
    method UpdateTitleAndColor()
      modifies this`title, this`titleColor, this`glowColor
      ensures Style(title, titleColor, glowColor) == StyleOf(BandOf(level))
    {
      if level < 10 { title := "🦌界萌新"; titleColor := "#E0E0E0"; glowColor := "#40FFFFFF"; }
      else if level < 30 { title := "小有所成"; titleColor := "#66FFCC"; glowColor := "#4066FFCC"; }
      else if level < 60 { title := "融会贯通"; titleColor := "#33CCFF"; glowColor := "#4033CCFF"; }
      else if level < 90 { title := "出神入化"; titleColor := "#CC66FF"; glowColor := "#40CC66FF"; }
      else { title := "🦌神"; titleColor := "#FFD700"; glowColor := "#60FFD700"; }
    }

    /** Recomputes level, title and colours from the points. */
    method CalculateLevel()
      modifies this`level, this`title, this`titleColor, this`glowColor
      ensures Derived()
    {
      var p: int := points;
      level := if p >= 0 then p / 100 else -((-p) / 100);
      UpdateTitleAndColor();
    }

    /** Writes a snapshot of the record, but only for the owner's record. */
    method Save()
      modifies this`written
      ensures written == old(written) + (if isMe then [Snapshot()] else [])
    {
      if isMe {
        written := written + [Snapshot()];
      }
    }

    /** The `Points` setter: a new value is stored, the level recomputed and the record saved;
     *  the current value changes nothing. */
    method SetPoints(value: Int32)
      modifies this`points, this`level, this`title, this`titleColor, this`glowColor, this`written
      ensures points == value
      ensures old(points) == value ==> unchanged(this)
      ensures old(points) != value ==>
        Derived() && written == old(written) + (if isMe then [Snapshot()] else [])
    {
      if points != value {
        points := value;
        CalculateLevel();
        Save();
      }
    }

    /**
     * The record the JSON deserializer builds. It goes through the setters while the record
     * is not yet marked as the owner's, so the points setter cannot write. A null history or
     * note collection is replaced by an empty one; a slot array that is null or shorter than
     * three is replaced by three open slots (the correction described in README.md).
     */
    static method Deserialize(s: StoredUser) returns (u: User)
      ensures fresh(u) && fresh(u.dailyCheckInStatus)
      ensures u.Valid() && !u.isMe && u.written == []
      ensures u.points == s.points && u.lastCheckInDate == s.lastCheckInDate
      ensures s.slots.Some? && |s.slots.value| >= 3 ==> u.dailyCheckInStatus[..] == s.slots.value
      ensures !(s.slots.Some? && |s.slots.value| >= 3) ==> u.dailyCheckInStatus[..] == NoSlots
      ensures u.checkInHistory == s.history.GetOr([]) && u.dailyThoughts == s.thoughts.GetOr(map[])
    {
      u := new User();
      u.SetPoints(s.points);
      if s.slots.Some? && |s.slots.value| >= 3 {
        var stored := s.slots.value;
        u.dailyCheckInStatus := new bool[|stored|](i requires 0 <= i < |stored| => stored[i]);
        assert u.dailyCheckInStatus[..] == stored;
      }
      u.lastCheckInDate := s.lastCheckInDate;
      u.checkInHistory := s.history.GetOr([]);
      u.dailyThoughts := s.thoughts.GetOr(map[]);
    }

    /** Loads the owner's record from the save file, rolls the slots over to `today` and
     *  recomputes the level. Nothing is written. */
    static method Load(file: StoredFile, today: string) returns (u: User)
      ensures fresh(u) && fresh(u.dailyCheckInStatus)
      ensures u.Valid() && u.isMe && u.Derived()
      ensures u.Snapshot() == Loaded(file, today)
      ensures u.written == []
    {
      u := new User();
      u.isMe := true;
      match file {
        case NoFile =>
          u.lastCheckInDate := today;
        case Unreadable =>
        case Parsed(s) =>
          u := Deserialize(s);
          u.isMe := true;
          if u.lastCheckInDate != today {
            u.lastCheckInDate := today;
            u.dailyCheckInStatus := new bool[][false, false, false];
          }
      }
      u.CalculateLevel();
    }
  }
}
