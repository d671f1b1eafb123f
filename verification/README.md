# Luleme progress model

A Dafny model of the progress rules of Luleme, a small desktop habit tracker. The user checks in
once in each of three day parts (morning, afternoon, evening), earns 100 points per check-in
(150 in coop mode), rises through levels (one per 100 points) and five titled bands, keeps one
note per day, and browses a calendar that highlights every checked-in day.

Modules, one per source file:

- `Progress` (`progress.dfy`, LulemeApp/User.cs) covers the progress record. The pure part derives
  the level and the band style from the points. The `User` class has the points setter, the
  level recomputation, the owner-gated `Save`, and the `Load` that rolls the slots over to a new day.
  `Load` is specified by the pure function `Loaded`, which gives the persisted fields it produces
  from a save file. The save file is either absent, unreadable or parsed.
  `Save` is modelled as an append to the ghost log `written`, which stands for the save file's
  successive contents.
- `Session` (`session.dfy`, LulemeApp/MainViewModel.cs) covers the view model. The check-in rule
  is the pure function `CheckedIn` on records. The `MainViewModel` class carries out check-in,
  save-thought, the coop switch and the panel toggles, and its methods are proved against those
  functions. The day key `today` is read once, when the view model is built, and every check-in
  records that key. The hour (for check-in) and the date key (for saving a note) are inputs to
  each call.
- `Calendar` (`calendar.dfy`, LulemeApp/MainWindow.xaml.cs) covers the calendar panel: the detail
  line for a selected day, the loop that rebuilds the highlighted dates, and the close buttons.
  `DateTime.TryParse` depends on the culture. It is passed in as a function.
- `Text` (`text.dfy`) holds the decimal digit strings behind the "yyyy-MM-dd" day keys and the
  reward in the status line, with the number a digit string stands for.
- `Wrappers` (`wrappers.dfy`) holds `Option`, which stands for a C# reference that may be null.

Points are C# `int` values: `Int32`, with unchecked addition wrapping around (`AddWrapped`). A
total near the top of the range wraps to a negative one: 2147483600 plus a 100-point check-in
gives -2147483596. A negative total can also be read from a file. The level uses C#'s
division, which truncates toward zero, so for a negative total it differs from the floor.

Two consequences of the code that the model keeps:

- After an unreadable file, Load keeps the empty date (LulemeApp/User.cs:95-115). The record
  is saved with that date, so the next start on the same day reopens every slot
  (`Session.UnreadableFileAllowsRepeatCheckIn`).
- Load accepts any `int` from the file, and the level truncates toward zero (`Progress.LevelOf`).

## Model

| member | source | states |
|---|---|---|
| Progress.AddWrapped | LulemeApp/MainViewModel.cs:86 | `Points += p` is C# unchecked addition: it is the exact sum when that fits in an `int`, and is congruent to it modulo 2^32 otherwise |
| Progress.LevelOf | LulemeApp/User.cs:63 | the level is `Points / 100` truncated toward zero: for non-negative points `100*level <= points < 100*level + 100` and `level >= 0`; for negative points the mirrored bounds with `level <= 0` |
| Progress.LevelMonotonic | LulemeApp/User.cs:63 | more points never give a lower level |
| Progress.LevelStep | LulemeApp/User.cs:63 | adding 100·k points to a non-negative total raises the level by exactly k |
| Progress.BandOf | LulemeApp/User.cs:69-73 | the five bands are exactly `level < 10`, `[10,30)`, `[30,60)`, `[60,90)`, `level >= 90` (each band holds iff its range holds, so they are disjoint and cover every level) |
| Progress.BandMonotonic | LulemeApp/User.cs:69-73 | a higher level never falls in a lower band |
| Progress.StyleColours | LulemeApp/User.cs:69-73 | every text colour is "#RRGGBB" and every glow "#AARRGGBB"; above the first band the glow is the text colour behind an alpha byte, and the first band glows white |
| Progress.StyleDistinguishesBands | LulemeApp/User.cs:69-73 | the five titles are pairwise different, so the title determines the band |
| Progress.StyleOfPoints | LulemeApp/User.cs:61-74 | below 1000 points the style is the novice triple; from 9000 points on it is the legend triple; `Derived`, the invariant of every computed record, is stated through it |
| Progress.User.UpdateTitleAndColor | LulemeApp/User.cs:67-74 | the (title, title colour, glow colour) triple becomes the fixed triple of the level's band; it depends on `level` alone |
| Progress.User.CalculateLevel | LulemeApp/User.cs:61-65 | afterwards `level == LevelOf(points)` and the style is that level's band style |
| Progress.User.Save | LulemeApp/User.cs:77-89 | a snapshot of the persisted fields is written iff `isMe`; a record that is not the owner's never writes |
| Progress.User.SetPoints | LulemeApp/User.cs:22-35 | the current value changes nothing and writes nothing; a new value is stored, level and style are recomputed, and one snapshot is written iff `isMe` |
| Progress.User.constructor | LulemeApp/User.cs:16-56 | a new record is not the owner's, has 0 points, three open slots, an empty date, history and notes, level 0 and the initial white title colours |
| Progress.User.Deserialize | LulemeApp/User.cs:99 | the deserialized record carries the stored points, date, history and notes (null collections become empty, lines 123-124); it carries all the stored slot flags when there are at least three, and three open slots when the array is null or shorter (corrected, see Findings); it has written nothing, because it is not yet the owner's when its points are set |
| Progress.User.Load | LulemeApp/User.cs:91-128 | the loaded record is the owner's, has at least three slots (corrected, see Findings), level and style agree with its points, its persisted fields are `Loaded(file, today)`, and loading writes nothing |
| Progress.Loaded | LulemeApp/User.cs:91-128 | a loaded record always has at least three slot flags (corrected, see Findings); unless the file was unreadable it is dated today |
| Progress.LoadRollsOver | LulemeApp/User.cs:105-111 | a parsed record dated another day comes back dated today with all three slots open and its points kept |
| Progress.LoadKeepsTodaysSlots | LulemeApp/User.cs:105-111 | a parsed record dated today keeps all its slot flags when it has at least three, as the source does |
| Progress.Stored | LulemeApp/User.cs:86 | a save writes every collection: the slot flags, history and notes are never `null` in what it writes |
| Progress.LoadDefaults | LulemeApp/User.cs:93-120 | no file gives the default record dated today; an unreadable file gives the default record with the empty date |
| Progress.SaveLoadRoundTrip | LulemeApp/User.cs:86-111 | loading what a save wrote gives back the points, history and notes; the slot flags come back on the same day and are reset on another day |
| Progress.LoadedSlotsAsWritten | LulemeApp/User.cs:105-111 | as written, the stored slot array is kept whenever the stored date is today, whatever it is (see Findings) |
| Progress.EmptyStoredSlotsSurviveLoad | LulemeApp/User.cs:105-111 | an empty stored slot array dated today survives the load, and slot 0 is out of its range |
| Progress.LoadedSlots | LulemeApp/User.cs:105-111 | corrected: at least three flags; all three open on a new day; wherever the as-written result is an array of at least three flags it is that array, and only a null or shorter array is replaced by three open slots |
| Session.SlotOf | LulemeApp/MainViewModel.cs:82 | slot 0 iff hour < 12, slot 1 iff 12 <= hour < 18, slot 2 iff hour >= 18; always below 3 |
| Session.Reward | LulemeApp/MainViewModel.cs:85 | 100 points alone; in coop mode 1.5 times 100, which is exactly 150 |
| Session.AppendIfAbsent | LulemeApp/MainViewModel.cs:90-91 | the day is in the result; a history that already lists the day is returned unchanged; otherwise earlier entries keep their place and exactly one entry is added |
| Session.AppendIfAbsentMembers | LulemeApp/MainViewModel.cs:90-91 | the entries after a check-in are the old ones plus the day, and a history without repeats stays without repeats |
| Session.CheckedIn | LulemeApp/MainViewModel.cs:82-93 | a taken slot rejects the check-in; otherwise points grow by the reward (wrapping as C# does), the slot is taken, the other slots, date and notes are unchanged, and the history gains the day only if it was missing |
| Session.RewardChangesPoints | LulemeApp/MainViewModel.cs:86 | adding the reward always changes the points, even when the sum wraps around, so the points setter always saves during a check-in |
| Session.CheckInReward | LulemeApp/MainViewModel.cs:85-86 | below the `int` limit an accepted check-in adds exactly 100 points, or 150 in coop mode |
| Session.SecondCheckInRejected | LulemeApp/MainViewModel.cs:83 | after an accepted check-in, a second one in the same slot is rejected, in any mode |
| Session.DayListedOnce | LulemeApp/MainViewModel.cs:90-91 | checking in in all three slots of a day takes all three and lists the day once, in a history that stays without repeats, with earlier entries unchanged |
| Session.NewDayCheckInAccepted | LulemeApp/User.cs:105-111 | a record saved on an earlier day and loaded today accepts a check-in in every slot |
| Session.FirstMorningCheckIn | LulemeApp/MainViewModel.cs:81-96 | first run, hour 9, coop off: 100 points, slots [true, false, false], history [today] |
| Session.UnreadableFileAllowsRepeatCheckIn | LulemeApp/User.cs:95-115 | after an unreadable file the saved record keeps the empty date, so a reload on the same day reopens a slot already taken |
| Session.SuccessMessageShowsReward | LulemeApp/MainViewModel.cs:94 | the status line starts with "打卡成功 +", and the characters after it are decimal digits that read back as the reward |
| Session.IsWhiteSpace | LulemeApp/MainViewModel.cs:100 | space, tab, line feed, carriage return and the ideographic space U+3000 are white space; no visible ASCII character is |
| Session.IsBlank | LulemeApp/MainViewModel.cs:100 | the empty draft is blank; a draft holding any visible ASCII character is not |
| Session.SavedThought | LulemeApp/MainViewModel.cs:100-110 | a blank draft saves nothing; otherwise the note of the key becomes the draft, replacing any earlier one, every other note is kept, the notes grow only for a new key, and no other field changes |
| Session.NewFriend | LulemeApp/MainViewModel.cs:72-75 | a friend record is not the owner's, carries its points and writes nothing |
| Session.MakeFriends | LulemeApp/MainViewModel.cs:71-78 | the four friends carry 8500, 3400, 0 and 15000 points, are not the owner's, never write, and all have level and style computed from their points |
| Session.MainViewModel.constructor | LulemeApp/MainViewModel.cs:61-78 | the current record is the loaded owner's record, with its level computed; the draft is today's note exactly when there is one, else empty; the status, panel and coop fields take their initial values; the friends are as in MakeFriends |
| Session.MainViewModel.CheckIn | LulemeApp/MainViewModel.cs:81-96 | a taken slot only sets the status line "该时段已打卡", with nothing written; otherwise the record becomes `CheckedIn` of the old record with the constructor-time day, two snapshots are written (one by the points setter, one by the explicit save), the status reports the reward, and level and style still agree with the points |
| Session.MainViewModel.SaveThought | LulemeApp/MainViewModel.cs:99-115 | a blank draft changes nothing; otherwise the persisted fields become `SavedThought` of the old ones, that snapshot is written once, the status says it was saved, and the shown note is the draft |
| Session.MainViewModel.SetCoopMode | LulemeApp/MainViewModel.cs:44 | stores the flag, sets the status to "好友一起🦌已开启 x1.5" or "单人模式", and never touches the record |
| Session.MainViewModel.SetCurrentInputThought | LulemeApp/MainViewModel.cs:47 | stores the draft |
| Session.MainViewModel.ToggleSettings | LulemeApp/MainViewModel.cs:117 | negates the settings flag, so two toggles restore it |
| Session.MainViewModel.ToggleCalendar | LulemeApp/MainViewModel.cs:118 | negates the calendar flag, so two toggles restore it |
| Text.DecimalValue | LulemeApp/MainWindow.xaml.cs:62 | a string of n decimal digits stands for a number below 10^n |
| Text.PaddedValue | LulemeApp/MainWindow.xaml.cs:62 | a number below 10^width, zero-padded to width digits, reads back as itself; so two such numbers have the same padding only when they are equal |
| Text.DecimalValueOf | LulemeApp/MainViewModel.cs:94 | `ToString()` of a non-negative number gives decimal digits that read back as the number, with no leading zero |
| Calendar.DateKey | LulemeApp/MainWindow.xaml.cs:62 | a "yyyy-MM-dd" key is ten characters long, with dashes at positions 4 and 7; its first four characters are digits reading as the year, the two after the first dash the month, and the last two the day |
| Calendar.DateKeyInjective | LulemeApp/MainWindow.xaml.cs:62 | different days have different keys, so a lookup finds the selected day's entries only |
| Calendar.DayDetail | LulemeApp/MainWindow.xaml.cs:64-77 | a day with a note shows the note; without a note the line begins with "📅 " and the key, and it is the checked-in message iff the key is in the history, otherwise the not-checked-in message |
| Calendar.DetailShowsSavedThought | LulemeApp/MainWindow.xaml.cs:65-67 | after a non-blank note is saved for a day, that day's detail line is the note, and the line of every other day is unchanged |
| Calendar.DetailShowsCheckIn | LulemeApp/MainWindow.xaml.cs:70-74 | after a check-in on a day with no note, that day's detail line reports "已打卡，但未记录感想。" |
| Calendar.ParsedDatesExactly | LulemeApp/MainWindow.xaml.cs:41-48 | a date is highlighted exactly when some history entry parses to it |
| Calendar.ParsedDates | LulemeApp/MainWindow.xaml.cs:41-48 | no more dates are highlighted than there are history entries |
| Calendar.MainWindow.constructor | LulemeApp/MainWindow.xaml.cs:10-14 | the window's data context is a fresh view model over the loaded record |
| Calendar.MainWindow.SettingsClose | LulemeApp/MainWindow.xaml.cs:21-24 | the settings flag becomes false (so repeating it changes nothing), and nothing else changes |
| Calendar.MainWindow.CalendarClose | LulemeApp/MainWindow.xaml.cs:26-29 | the calendar flag becomes false (so repeating it changes nothing), and nothing else changes |
| Calendar.MainWindow.ShowSelectedDay | LulemeApp/MainWindow.xaml.cs:55-79 | with no date selected nothing changes; otherwise only the shown text changes, to the day's note, else to the checked-in or not-checked-in line for the day's key |
| Calendar.MainWindow.RefreshHighlights | LulemeApp/MainWindow.xaml.cs:34-52 | with the calendar hidden nothing changes; with it visible, the highlighted dates become exactly the parseable history entries in history order, and the detail line resets to "点击日期查看记录..." |

## Findings

| source | as written | input that shows it | evidently intended | confidence | as-written member | corrected member |
|---|---|---|---|---|---|---|
| LulemeApp/User.cs:105-111 | when the stored date is today, the deserialized `DailyCheckInStatus` array is kept as it is, even if it is null or holds fewer than three flags; null collections are repaired at lines 123-124, but this array is not | a save file with `"LastCheckInDate"` equal to today and `"DailyCheckInStatus": []`, then a check-in at hour 9: `DailyCheckInStatus[0]` indexes an empty array, and the command throws | the loaded record always has the three slot flags the check-in reads, as the initializer at line 38 and the reset at line 110 give it; the model corrects only a null or shorter array and keeps a longer one as the source does | medium, not executed | Progress.LoadedSlotsAsWritten, Progress.EmptyStoredSlotsSurviveLoad | Progress.LoadedSlots, Progress.Loaded, Progress.User.Deserialize, Progress.User.Load |

## Left out

- JSON serialization and file I/O (`JsonSerializer`, `File`, `Directory`, `SavePath`) are left out. The file is the input `StoredFile`, and a write is an entry in the ghost log `written`.
- Progress.User.Save: a disk write that fails is swallowed by the source. The model records every write attempt of the owner's record and does not tell failed writes apart.
- The JSON file also carries `Level`, `Title`, `TitleColor` and `GlowColor`, and deserialization sets them. `Load` always recomputes them, so they are not part of `StoredUser`.
- A `null` date in the file is represented by a date other than today. It takes the same reset path.
- The display-only `Name` and `AvatarUrl` strings and the friends' names and avatars are left out. No rule reads them.
- `DateTime.Now` is not modelled. Load and the view-model constructor read the clock separately, and the model gives both the same `today`. A start that crosses midnight between the two reads is not modelled.
- The floating-point product `(int)(100 * multiplier)` is replaced by its exact integer values 100 and 150.
- `DateTime.Now` is read twice for one check-in slot (LulemeApp/MainViewModel.cs:82). Hour 23 at the first read and hour 0 at the second gives slot 1 across midnight. The model reads the hour once.
- The save file can hold `null` history entries or `null` note values. `seq<string>` and `map<string, string>` cannot carry them. A `null` note for today would pre-fill a `null` draft (LulemeApp/MainViewModel.cs:69).
- `DateTime.TryParse` is a parameter. The model does not say which strings it accepts.
- WPF's `SelectedDatesCollection` is modelled as a sequence that each `Add` appends to. Its handling of a repeated date and of the calendar's selection mode is not modelled.
- Change notification (`INotifyPropertyChanged`, `OnPropertyChanged`) is not modelled. This includes the calendar events it triggers, for example the lookup that fires when the highlighted dates change.
- The command plumbing (`SimpleCommand`, `ICommand`, `CommandManager`) is not modelled. Each command body is a method.
- The GitHub link (`OpenGithubCommand`, `Process.Start`), window dragging, `Exit_Click` and `InitializeComponent` are OS and UI calls. They are left out.
- The tests `DataContext is MainViewModel` and `HistoryCalendar != null` always hold once the window is built. The window holds its view model directly.
