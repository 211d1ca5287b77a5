/** The texts the scheduler and its clients exchange: requests written to the status file,
    and the status read back from it. */
module Protocol {
  import opened Options
  import opened Tasks

  const WORD: nat := 0x1_0000_0000

  // ---- Unsigned decimals ----

  predicate IsDigit(c: char) {
    '0' <= c <= '9'
  }

  function DigitOf(d: nat): (c: char)
    requires d < 10
    ensures IsDigit(c) && ValueOf(c) == d
  {
    '0' + d as char
  }

  function ValueOf(c: char): (d: nat)
    requires IsDigit(c)
    ensures d < 10
  {
    c as nat - '0' as nat
  }

  /** %u, printing. */
  function Print(n: nat): (s: string)
    ensures s != "" && forall i :: 0 <= i < |s| ==> IsDigit(s[i])
  {
    if n < 10 then [DigitOf(n)] else Print(n / 10) + [DigitOf(n % 10)]
  }

  predicate NoDigitFirst(s: string) {
    s == "" || !IsDigit(s[0])
  }

  /** The number the leading digits of `s` continue, `acc` being what precedes them. */
  function Digits(s: string, acc: nat): nat {
    if NoDigitFirst(s) then acc else Digits(s[1..], 10 * acc + ValueOf(s[0]))
  }

  predicate IsSpace(c: char) {
    c == ' ' || '\t' <= c <= '\r'
  }

  /** %u, scanning: leading spaces are skipped, the value is truncated to a word, and
      nothing is assigned unless there is a digit. */
  function Scan(s: string): (v: Option<nat>)
    ensures v.Some? ==> v.value < WORD
  {
    if s == "" then None
    else if IsSpace(s[0]) then Scan(s[1..])
    else if NoDigitFirst(s) then None
    else Some(Digits(s, 0) % WORD)
  }

  /** The client's %u is its C library's, which also takes a sign. */
  function LibraryScan(s: string): (v: Option<nat>)
    ensures v.Some? ==> v.value < WORD
  {
    if s == "" then None
    else if IsSpace(s[0]) then LibraryScan(s[1..])
    else
      var unsigned := if s[0] == '+' || s[0] == '-' then s[1..] else s;
      if NoDigitFirst(unsigned) then None
      else
        var value := Digits(unsigned, 0) % WORD;
        Some(if s[0] == '-' && value > 0 then WORD - value else value)
  }

  lemma {:induction false} DigitsOfPrint(n: nat, rest: string)
    ensures Digits(Print(n) + rest, 0) == Digits(rest, n)
  {
    if n < 10 {
      assert (Print(n) + rest)[1..] == rest;
    } else {
      var last := [DigitOf(n % 10)];
      DigitsOfPrint(n / 10, last + rest);
      assert Print(n / 10) + (last + rest) == Print(n) + rest;
      assert (last + rest)[1..] == rest;
    }
  }

  lemma ScanOfDigits(s: string, n: nat)
    requires s != "" && IsDigit(s[0]) && Digits(s, 0) == n < WORD
    ensures Scan(s) == LibraryScan(s) == Some(n)
  {
  }

  /** What is printed is what is scanned, up to the first character that is no digit. */
  lemma ScanOfPrint(n: nat, rest: string)
    requires n < WORD && NoDigitFirst(rest)
    ensures Scan(Print(n) + rest) == LibraryScan(Print(n) + rest) == Some(n)
  {
    DigitsOfPrint(n, rest);
    assert (Print(n) + rest)[0] == Print(n)[0];
    ScanOfDigits(Print(n) + rest, n);
  }

  /** Numbers beyond 32 bits wrap around. */
  lemma ScanWraps(n: nat, rest: string)
    requires NoDigitFirst(rest)
    ensures Scan(Print(n) + rest) == LibraryScan(Print(n) + rest) == Some(n % 0x1_0000_0000)
  {
    DigitsOfPrint(n, rest);
    assert (Print(n) + rest)[0] == Print(n)[0];
  }

  /** Blanks, tabs, newlines and their like are skipped before a number. */
  lemma SpaceIsSkipped(c: char, s: string)
    requires c == ' ' || 9 <= c as nat <= 13
    ensures Scan([c] + s) == Scan(s) && LibraryScan([c] + s) == LibraryScan(s)
  {
    assert ([c] + s)[1..] == s;
  }

  lemma SignedIs(sign: char, s: string, v: nat)
    requires (sign == '+' || sign == '-') && s != "" && IsDigit(s[0]) && Digits(s, 0) % WORD == v
    ensures Scan([sign] + s) == None
    ensures LibraryScan([sign] + s) == Some(if sign == '-' && v > 0 then WORD - v else v)
  {
    assert ([sign] + s)[1..] == s;
  }

  /** The kernel's %u takes no sign; the library's does, and negates within 32 bits. */
  lemma ScanOfSigned(n: nat, rest: string, v: nat)
    requires NoDigitFirst(rest) && v == n % 0x1_0000_0000
    ensures Scan("+" + (Print(n) + rest)) == Scan("-" + (Print(n) + rest)) == None
    ensures LibraryScan("+" + (Print(n) + rest)) == Some(v)
    ensures LibraryScan("-" + (Print(n) + rest)) == Some(if v == 0 then 0 else 0x1_0000_0000 - v)
  {
    var s := Print(n) + rest;
    DigitsOfPrint(n, rest);
    assert s[0] == Print(n)[0];
    SignedIs('+', s, v);
    SignedIs('-', s, v);
  }

  // ---- Splitting ----

  /** Before the first `c`, or all of it. */
  function Upto(s: string, c: char): (t: string)
    ensures |t| <= |s|
  {
    if s == "" || s[0] == c then "" else [s[0]] + Upto(s[1..], c)
  }

  /** After the first `c`, if there is one. */
  function Beyond(s: string, c: char): (t: Option<string>)
    ensures t.Some? ==> |t.value| < |s|
  {
    if s == "" then None else if s[0] == c then Some(s[1..]) else Beyond(s[1..], c)
  }

  lemma {:induction false} SplitAt(a: string, c: char, b: string)
    requires c !in a
    ensures Upto(a + [c] + b, c) == a && Beyond(a + [c] + b, c) == Some(b)
  {
    var s := a + [c] + b;
    if a == "" {
      assert s[1..] == b;
    } else {
      SplitAt(a[1..], c, b);
      assert s[1..] == a[1..] + [c] + b;
    }
  }

  lemma {:induction false} NoSplit(a: string, c: char)
    requires c !in a
    ensures Upto(a, c) == a && Beyond(a, c) == None
  {
    if a != "" {
      assert a[0] != c && c !in a[1..];
      NoSplit(a[1..], c);
    }
  }

  // ---- Requests ----

  datatype Request =
    | Registration(pid: nat, period: nat, processingTime: nat)
    | Yield(pid: nat)
    | Deregistration(pid: nat)

  predicate Words(r: Request) {
    r.pid < WORD && (r.Registration? ==> r.period < WORD && r.processingTime < WORD)
  }

  /** What the client writes: the text its echo prints, newline included. */
  function ClientText(r: Request): string {
    match r
    case Registration(pid, period, time) =>
      "R, " + (Print(pid) + [','] + (" " + Print(period) + [','] + (" " + Print(time) + ['\n'] + "")))
    case Yield(pid) => "Y, " + (Print(pid) + "\n")
    case Deregistration(pid) => "D, " + (Print(pid) + "\n")
  }

  /** The three numbers of a registration, each with its own delimiter. None: a token is
      missing, or one that should hold a number does not, and the handler has no value. */
  function ParseRegistration(s: string): (r: Option<Request>) {
    var pid := Scan(Upto(s, ','));
    var s1 := Beyond(s, ',');
    if pid == None || s1 == None then None else
      var period := Scan(Upto(s1.value, ','));
      var s2 := Beyond(s1.value, ',');
      if period == None || s2 == None then None else
        var time := Scan(Upto(s2.value, '\n'));
        if time == None then None else Some(Registration(pid.value, period.value, time.value))
  }

  /** mp2_write: the first character selects the handler, which gets the text from the fourth on. */
  function Handle(text: string): (r: Option<Request>)
    ensures r.Some? ==> Words(r.value)
  {
    if |text| < 3 then None
    else
      var message := text[3..];
      if text[0] == 'R' then ParseRegistration(message)
      else if text[0] == 'Y' && Scan(message).Some? then Some(Yield(Scan(message).value))
      else if text[0] == 'D' && Scan(message).Some? then Some(Deregistration(Scan(message).value))
      else None
  }

  lemma ScanOfSpacedToken(n: nat, c: char, b: string)
    requires n < WORD && !IsDigit(c) && c != ' '
    ensures var s := " " + Print(n) + [c] + b; Scan(Upto(s, c)) == Some(n) && Beyond(s, c) == Some(b)
  {
    SplitAt(" " + Print(n), c, b);
    ScanOfPrint(n, "");
    assert Print(n) + "" == Print(n);
    assert (" " + Print(n))[1..] == Print(n);
  }

  lemma ScanOfToken(n: nat, c: char, b: string)
    requires n < WORD && !IsDigit(c)
    ensures var s := Print(n) + [c] + b;
            Scan(Upto(s, c)) == LibraryScan(Upto(s, c)) == Some(n) && Beyond(s, c) == Some(b)
  {
    SplitAt(Print(n), c, b);
    ScanOfPrint(n, "");
    assert Print(n) + "" == Print(n);
  }

  lemma RegistrationRoundTrip(pid: nat, period: nat, time: nat)
    requires pid < WORD && period < WORD && time < WORD
    ensures Handle(ClientText(Registration(pid, period, time))) == Some(Registration(pid, period, time))
  {
    var s2 := " " + Print(time) + ['\n'] + "";
    var s1 := " " + Print(period) + [','] + s2;
    var s := Print(pid) + [','] + s1;
    assert ("R, " + s)[3..] == s;
    ScanOfToken(pid, ',', s1);
    ScanOfSpacedToken(period, ',', s2);
    ScanOfSpacedToken(time, '\n', "");
  }

  /** The handler recovers exactly the request the client prints, for all 32-bit values. */
  lemma RequestRoundTrip(r: Request)
    requires Words(r)
    ensures Handle(ClientText(r)) == Some(r)
  {
    match r
    case Registration(pid, period, time) => RegistrationRoundTrip(pid, period, time);
    case Yield(pid) =>
      ScanOfPrint(pid, "\n");
      assert ClientText(r)[3..] == Print(pid) + "\n";
    case Deregistration(pid) =>
      ScanOfPrint(pid, "\n");
      assert ClientText(r)[3..] == Print(pid) + "\n";
  }

  /** The first character alone selects the handler; any other message is ignored. */
  lemma LetterSelects(text: string)
    requires Handle(text).Some?
    ensures match Handle(text).value
            case Registration(_, _, _) => text[0] == 'R'
            case Yield(_) => text[0] == 'Y'
            case Deregistration(_) => text[0] == 'D'
  {
  }

  /** What the client writes, to the character. */
  lemma RequestTexts()
    ensures ClientText(Registration(7, 100, 5)) == "R, 7, 100, 5\n"
    ensures ClientText(Yield(7)) == "Y, 7\n" && ClientText(Deregistration(7)) == "D, 7\n"
  {
    PrintHundred();
  }

  lemma PrintHundred()
    ensures Print(100) == "100"
  {
    assert Print(1) == "1";
    assert Print(10) == Print(1) + "0";
  }

  // ---- The status text ----

  const BUFFERLEN: nat := 1000

  function StateCode(s: RunState): nat {
    match s
    case Ready => 0
    case Running => 1
    case Sleeping => 2
  }

  /** What follows the pid on a line. */
  function Details(t: Task): (s: string)
    ensures '\n' !in s
  {
    var s := " " + Print(t.period) + ", " + Print(t.processingTime) + ", " + Print(StateCode(t.state));
    assert forall c :: c in s ==> IsDigit(c) || c == ' ' || c == ',';
    s
  }

  function StatusLine(t: Task): (s: string)
    ensures s != ""
  {
    Print(t.pid) + [':'] + Details(t) + ['\n']
  }

  function StatusText(ts: seq<Task>): string {
    if ts == [] then "" else StatusLine(ts[0]) + StatusText(ts[1..])
  }

  lemma Associate(a: string, b: string, c: string)
    ensures a + (b + c) == (a + b) + c
  {
  }

  lemma StatusOfOne(t: Task)
    ensures StatusText([t]) == StatusLine(t)
  {
    assert [t][1..] == [];
    assert StatusText([]) == "" && StatusLine(t) + "" == StatusLine(t);
  }

  lemma {:induction false} StatusTextAppend(ts: seq<Task>, t: Task)
    ensures StatusText(ts + [t]) == StatusText(ts) + StatusLine(t)
  {
    if ts == [] {
      assert ts + [t] == [t];
      StatusOfOne(t);
    } else {
      StatusTextAppend(ts[1..], t);
      assert (ts + [t])[1..] == ts[1..] + [t] && (ts + [t])[0] == ts[0];
      Associate(StatusLine(ts[0]), StatusText(ts[1..]), StatusLine(t));
    }
  }

  lemma OneLineMore(list: seq<Task>, i: nat)
    requires i < |list|
    ensures StatusText(list[..i + 1]) == StatusText(list[..i]) + StatusLine(list[i])
  {
    assert list[..i + 1] == list[..i] + [list[i]];
    StatusTextAppend(list[..i], list[i]);
  }

  // ---- Reading the status back ----

  /** The numbers on a line: one before the colon, two before commas, and one after them. */
  datatype Row = Row(pid: Option<nat>, period: Option<nat>, time: Option<nat>, state: Option<nat>)

  function After(s: string, c: char): string {
    if Beyond(s, c) == None then "" else Beyond(s, c).value
  }

  function ReadRow(line: string): Row {
    var numbers := After(line, ':');
    var others := After(numbers, ',');
    Row(Scan(Upto(line, ':')), Scan(Upto(numbers, ',')), Scan(Upto(others, ',')), Scan(After(others, ',')))
  }

  /** The rows of a text, one for each newline. */
  function ReadTable(s: string): seq<Row>
    decreases |s|
  {
    var rest := Beyond(s, '\n');
    if rest == None then [] else [ReadRow(Upto(s, '\n'))] + ReadTable(rest.value)
  }

  predicate FitsWords(t: Task) {
    t.pid < 0x1_0000_0000 && t.period < 0x1_0000_0000 && t.processingTime < 0x1_0000_0000
  }

  /** Row by row the table says pid, period, processing time and state of the tasks. */
  ghost predicate Tells(table: seq<Row>, ts: seq<Task>) {
    && |table| == |ts|
    && forall i :: 0 <= i < |ts| ==>
         table[i] == Row(Some(ts[i].pid), Some(ts[i].period), Some(ts[i].processingTime),
                         Some(match ts[i].state case Ready => 0 case Running => 1 case Sleeping => 2))
  }

  lemma ScanOfSpaced(n: nat)
    requires n < WORD
    ensures Scan(" " + Print(n)) == Some(n)
  {
    ScanOfPrint(n, "");
    assert Print(n) + "" == Print(n);
    assert (" " + Print(n))[1..] == Print(n);
  }

  lemma DetailsReadBack(t: Task)
    requires FitsWords(t)
    ensures var others := After(Details(t), ',');
            && Scan(Upto(Details(t), ',')) == Some(t.period) && Scan(Upto(others, ',')) == Some(t.processingTime)
            && Scan(After(others, ',')) == Some(match t.state case Ready => 0 case Running => 1 case Sleeping => 2)
  {
    var code := " " + Print(StateCode(t.state));
    var others := " " + Print(t.processingTime) + [','] + code;
    assert Details(t) == " " + Print(t.period) + [','] + others;
    ScanOfSpacedToken(t.period, ',', others);
    ScanOfSpacedToken(t.processingTime, ',', code);
    ScanOfSpaced(StateCode(t.state));
  }

  lemma LineReadsBack(t: Task)
    requires FitsWords(t)
    ensures Tells([ReadRow(Print(t.pid) + [':'] + Details(t))], [t])
  {
    ScanOfToken(t.pid, ':', Details(t));
    DetailsReadBack(t);
  }

  lemma LineHasOneNewline(t: Task)
    ensures '\n' !in Print(t.pid) + [':'] + Details(t)
  {
  }

  lemma TableOfPrepended(line: string, rest: string)
    requires '\n' !in line
    ensures ReadTable(line + ['\n'] + rest) == [ReadRow(line)] + ReadTable(rest)
  {
    SplitAt(line, '\n', rest);
  }

  lemma TellsPrepended(row: Row, t: Task, table: seq<Row>, ts: seq<Task>)
    requires Tells([row], [t]) && Tells(table, ts)
    ensures Tells([row] + table, [t] + ts)
  {
    assert [row][0] == row && [t][0] == t;
  }

  /** The status reads back: splitting its lines at the colon and the commas and scanning the
      pieces gives every task in list order, with its pid, period, processing time and state. */
  lemma {:induction false} StatusReadsBack(ts: seq<Task>)
    requires forall t :: t in ts ==> FitsWords(t)
    ensures Tells(ReadTable(StatusText(ts)), ts)
  {
    if ts != [] {
      var line := Print(ts[0].pid) + [':'] + Details(ts[0]);
      LineHasOneNewline(ts[0]);
      TableOfPrepended(line, StatusText(ts[1..]));
      LineReadsBack(ts[0]);
      StatusReadsBack(ts[1..]);
      TellsPrepended(ReadRow(line), ts[0], ReadTable(StatusText(ts[1..])), ts[1..]);
      assert ts == [ts[0]] + ts[1..];
    }
  }

  /** A line of it, to the character. */
  lemma LineText()
    ensures StatusText([Task(7, 100, 5, Sleeping, 0, false, None)]) == "7: 100, 5, 2\n"
  {
    PrintHundred();
    StatusOfOne(Task(7, 100, 5, Sleeping, 0, false, None));
  }

  /** mp2_read. */
  method Status(list: seq<Task>) returns (buf: string)
    ensures buf == StatusText(list)
    ensures (forall t :: t in list ==> FitsWords(t)) ==> Tells(ReadTable(buf), list)
  {
    buf := "";
    var i := 0;
    while i < |list|
      invariant 0 <= i <= |list|
      invariant buf == StatusText(list[..i])
    {
      OneLineMore(list, i);
      buf := buf + (Print(list[i].pid) + [':'] + Details(list[i]) + ['\n']);
      i := i + 1;
    }
    assert list[..i] == list;
    if forall t :: t in list ==> FitsWords(t) {
      StatusReadsBack(list);
    }
  }

  function Skip(s: string, c: char): (t: string)
    ensures |t| <= |s| && (t != "" ==> t[0] != c)
  {
    if s == "" || s[0] != c then s else Skip(s[1..], c)
  }

  /** What strtok leaves for the next call. */
  function Rest(s: string): (t: string)
    ensures s != "" ==> |t| < |s|
  {
    if Beyond(s, '\n') == None then "" else Beyond(s, '\n').value
  }

  /** The pid variable after a line: unchanged if the line starts with no number. */
  function LinePid(line: string, before: nat): nat {
    var v := LibraryScan(Upto(line, ':'));
    if v == None then before else v.value
  }

  /** Some line of `s` gives `pid`; `current` is what the pid variable holds beforehand. */
  predicate Mentions(s: string, pid: nat, current: nat)
    decreases |s|
  {
    var t := Skip(s, '\n');
    t != "" &&
    var c := LinePid(Upto(t, '\n'), current);
    c == pid || Mentions(Rest(t), pid, c)
  }

  /** What the client reads of a status text. */
  function Received(status: string): string {
    status[..if |status| <= BUFFERLEN then |status| else BUFFERLEN]
  }

  /** is_pid_registered on the status text, of which it reads BUFFERLEN characters; `garbage`
      is what its pid variable holds at first, `tail` what memory holds behind the characters
      read, up to the first zero byte: the client does not terminate the text itself. */
  method IsPidRegistered(status: string, pid: nat, garbage: nat, tail: string) returns (ret: int)
    ensures ret == if Mentions(Received(status) + tail, pid, garbage) then 1 else 0
  {
    var info := Received(status) + tail;
    ghost var all := info;
    var current := garbage;
    info := Skip(info, '\n');
    while info != ""
      invariant info == Skip(info, '\n')
      invariant Mentions(info, pid, current) == Mentions(all, pid, garbage)
      decreases |info|
    {
      current := LinePid(Upto(info, '\n'), current);
      if current == pid {
        return 1;
      }
      SkipTwice(Rest(info));
      info := Skip(Rest(info), '\n');
    }
    return 0;
  }

  lemma SkipTwice(s: string)
    ensures Skip(Skip(s, '\n'), '\n') == Skip(s, '\n')
  {
  }

  /** What is_pid_registered makes of the first n characters of the status of `ts`: each
      whole line gives its pid, and a line cut short gives as much of it as there is. */
  predicate Seen(ts: seq<Task>, n: nat, pid: nat) {
    ts != [] && n > 0 &&
    if n >= |StatusLine(ts[0])| then ts[0].pid == pid || Seen(ts[1..], n - |StatusLine(ts[0])|, pid)
    else pid == Digits(if n < |Print(ts[0].pid)| then Print(ts[0].pid)[..n] else Print(ts[0].pid), 0)
  }

  /** A whole line: its pid is read, and the text after it comes next. */
  lemma WholeLine(t: Task, rest: string, current: nat)
    requires t.pid < WORD
    ensures var s := StatusLine(t) + rest;
            && Skip(s, '\n') == s && s != ""
            && LinePid(Upto(s, '\n'), current) == t.pid && Rest(s) == rest
  {
    var line := Print(t.pid) + [':'] + Details(t);
    assert StatusLine(t) + rest == line + ['\n'] + rest;
    LineHasOneNewline(t);
    SplitAt(line, '\n', rest);
    ScanOfToken(t.pid, ':', Details(t));
    assert (StatusLine(t) + rest)[0] == Print(t.pid)[0];
  }

  lemma DigitsStep(s: string, t: string, acc: nat)
    requires s != "" && IsDigit(s[0])
    ensures Digits(s + t, acc) == Digits(s[1..] + t, 10 * acc + ValueOf(s[0]))
  {
    assert (s + t)[1..] == s[1..] + t;
  }

  lemma {:induction false} DigitsGrow(s: string, t: string, acc: nat)
    requires forall c :: c in s ==> IsDigit(c)
    ensures acc <= Digits(s, acc) <= Digits(s + t, acc)
  {
    if s == "" {
      assert s + t == t;
      DigitsAtLeast(t, acc);
    } else {
      DigitsGrow(s[1..], t, 10 * acc + ValueOf(s[0]));
      DigitsStep(s, t, acc);
    }
  }

  lemma {:induction false} DigitsAtLeast(t: string, acc: nat)
    ensures acc <= Digits(t, acc)
  {
    if !NoDigitFirst(t) {
      DigitsAtLeast(t[1..], 10 * acc + ValueOf(t[0]));
    }
  }

  /** The first n characters of a pid read as a number no greater than the pid. */
  lemma PidPrefix(pid: nat, n: nat)
    requires pid < WORD && 0 < n <= |Print(pid)|
    ensures LibraryScan(Print(pid)[..n]) == Some(Digits(Print(pid)[..n], 0))
  {
    var p := Print(pid);
    assert p[..n] + p[n..] == p && p + "" == p;
    DigitsOfPrint(pid, "");
    DigitsGrow(p[..n], p[n..], 0);
    assert IsDigit(p[..n][0]);
  }

  /** A line cut short: as much of its pid as there is. */
  lemma CutLine(t: Task, n: nat, current: nat)
    requires t.pid < WORD && 0 < n < |StatusLine(t)|
    ensures var s := StatusLine(t)[..n];
            && Skip(s, '\n') == s && s != "" && Rest(s) == ""
            && LinePid(Upto(s, '\n'), current)
               == Digits(if n < |Print(t.pid)| then Print(t.pid)[..n] else Print(t.pid), 0)
  {
    var p, s := Print(t.pid), StatusLine(t)[..n];
    var line := p + [':'] + Details(t);
    assert s == line[..n];
    LineHasOneNewline(t);
    assert '\n' !in s;
    NoSplit(s, '\n');
    assert s[0] == p[0];
    if n <= |p| {
      assert s == p[..n];
      NoSplit(s, ':');
      PidPrefix(t.pid, n);
      assert p[..|p|] == p;
    } else {
      var d := Details(t)[..n - |p| - 1];
      assert s == p + [':'] + d;
      ScanOfToken(t.pid, ':', d);
      DigitsOfPrint(t.pid, "");
      assert p + "" == p;
    }
  }

  /** Exactly what is_pid_registered answers from the first n characters of a status text. */
  lemma {:induction false} MentionsIffSeen(ts: seq<Task>, n: nat, pid: nat, current: nat)
    requires n <= |StatusText(ts)| && forall t :: t in ts ==> t.pid < WORD
    ensures Mentions(StatusText(ts)[..n], pid, current) <==> Seen(ts, n, pid)
  {
    var s := StatusText(ts)[..n];
    if ts == [] || n == 0 {
      assert s == "";
    } else {
      var line := StatusLine(ts[0]);
      if n >= |line| {
        var rest := StatusText(ts[1..])[..n - |line|];
        assert s == line + rest;
        WholeLine(ts[0], rest, current);
        MentionsIffSeen(ts[1..], n - |line|, pid, ts[0].pid);
      } else {
        assert s == line[..n];
        CutLine(ts[0], n, current);
      }
    }
  }

  ghost predicate HasPid(ts: seq<Task>, pid: nat) {
    exists i :: 0 <= i < |ts| && ts[i].pid == pid
  }

  lemma HasPidIn(ts: seq<Task>, pid: nat)
    requires ts != []
    ensures HasPid(ts, pid) <==> ts[0].pid == pid || HasPid(ts[1..], pid)
  {
    if i :| 0 <= i < |ts| && ts[i].pid == pid {
      assert i == 0 || ts[1..][i - 1].pid == pid;
    }
    if i :| 0 <= i < |ts[1..]| && ts[1..][i].pid == pid {
      assert ts[i + 1].pid == pid;
    }
  }

  /** Blank lines are skipped. */
  lemma BlankLineIsSkipped(s: string, pid: nat, current: nat)
    ensures Mentions("\n" + s, pid, current) <==> Mentions(s, pid, current)
  {
    assert ("\n" + s)[1..] == s;
  }

  /** A line that starts with no number leaves the pid variable as it was. */
  lemma LineWithoutNumber(line: string, s: string, pid: nat, current: nat)
    requires line != "" && '\n' !in line && LibraryScan(Upto(line, ':')) == None
    ensures Mentions(line + ['\n'] + s, pid, current) <==> current == pid || Mentions(s, pid, current)
  {
    SplitAt(line, '\n', s);
    assert (line + ['\n'] + s)[0] == line[0] && line[0] in line;
  }

  // ---- Whatever follows the text in memory ----

  /** What the pid variable holds after the lines of `ts`. */
  function LastPid(ts: seq<Task>, before: nat): nat {
    if ts == [] then before else ts[|ts| - 1].pid
  }

  lemma {:induction false} LinesThenRest(ts: seq<Task>, rest: string, pid: nat, current: nat)
    requires forall t :: t in ts ==> t.pid < WORD
    ensures Mentions(StatusText(ts) + rest, pid, current)
            <==> HasPid(ts, pid) || Mentions(rest, pid, LastPid(ts, current))
  {
    if ts == [] {
      assert StatusText(ts) + rest == rest;
    } else {
      Associate(StatusLine(ts[0]), StatusText(ts[1..]), rest);
      WholeLine(ts[0], StatusText(ts[1..]) + rest, current);
      LinesThenRest(ts[1..], rest, pid, ts[0].pid);
      HasPidIn(ts, pid);
    }
  }

  /** The client finds every pid whose line it has read whole: `k` such lines and `left`, part
      of the next. Beyond that its answer is what it makes of `left` together with what follows
      it in memory. */
  lemma AnswerWithTail(ts: seq<Task>, k: nat, left: string, tail: string, pid: nat, garbage: nat)
    requires k <= |ts| && Received(StatusText(ts)) == StatusText(ts[..k]) + left
    requires forall t :: t in ts ==> t.pid < WORD
    ensures Mentions(Received(StatusText(ts)) + tail, pid, garbage)
            <==> HasPid(ts[..k], pid) || Mentions(left + tail, pid, LastPid(ts[..k], garbage))
  {
    Associate(StatusText(ts[..k]), left, tail);
    LinesThenRest(ts[..k], left + tail, pid, garbage);
  }

  /** Of a status that fits the buffer every registered pid is found, whatever follows it in
      memory, and an unregistered one is reported exactly if what follows mentions it. */
  lemma TailDecides(ts: seq<Task>, tail: string, pid: nat, garbage: nat)
    requires |StatusText(ts)| <= 1000 && forall t :: t in ts ==> t.pid < WORD
    ensures Mentions(Received(StatusText(ts)) + tail, pid, garbage)
            <==> HasPid(ts, pid) || Mentions(tail, pid, LastPid(ts, garbage))
  {
    assert Received(StatusText(ts)) == StatusText(ts);
    LinesThenRest(ts, tail, pid, garbage);
  }

  // ---- If the text is all there is ----

  /** How far the status text has to be read to have the last pid. */
  function LastPidEnd(ts: seq<Task>): nat
    requires ts != []
  {
    if |ts| == 1 then |Print(ts[0].pid)| else |StatusLine(ts[0])| + LastPidEnd(ts[1..])
  }

  lemma {:induction false} LastPidEndIs(ts: seq<Task>)
    requires ts != []
    ensures LastPidEnd(ts) + |Details(ts[|ts| - 1])| + 2 == |StatusText(ts)|
  {
    if |ts| == 1 {
      assert StatusText(ts[1..]) == "";
    } else {
      LastPidEndIs(ts[1..]);
      assert ts[1..][|ts| - 2] == ts[|ts| - 1];
      assert |StatusText(ts)| == |StatusLine(ts[0])| + |StatusText(ts[1..])|;
    }
  }

  lemma {:induction false} ReadFarEnough(ts: seq<Task>, n: nat, pid: nat)
    requires ts != [] && LastPidEnd(ts) <= n
    ensures Seen(ts, n, pid) <==> HasPid(ts, pid)
  {
    HasPidIn(ts, pid);
    if |ts| == 1 {
      DigitsOfPrint(ts[0].pid, "");
      assert Print(ts[0].pid) + "" == Print(ts[0].pid);
    } else {
      ReadFarEnough(ts[1..], n - |StatusLine(ts[0])|, pid);
    }
  }

  /** Some of the digits of a number read as a smaller one. */
  lemma {:induction false} CutPidIsSmaller(p: nat, n: nat)
    requires 0 < n < |Print(p)|
    ensures Digits(Print(p)[..n], 0) < p
  {
    var q := Print(p / 10);
    if n == |q| {
      assert Print(p)[..n] == q && q + "" == q;
      DigitsOfPrint(p / 10, "");
    } else {
      assert Print(p)[..n] == q[..n];
      CutPidIsSmaller(p / 10, n);
    }
  }

  /** Read less far, and some registered pid is not found. */
  lemma {:induction false} MissedPid(ts: seq<Task>, n: nat) returns (pid: nat)
    requires ts != [] && Distinct(ts) && n < LastPidEnd(ts)
    ensures HasPid(ts, pid) && !Seen(ts, n, pid)
  {
    var p := Print(ts[0].pid);
    DigitsOfPrint(ts[0].pid, "");
    assert p + "" == p;
    if n >= |StatusLine(ts[0])| {
      pid := MissedPid(ts[1..], n - |StatusLine(ts[0])|);
      HasPidIn(ts, pid);
    } else if n < |p| {
      pid := ts[0].pid;
      if n > 0 {
        CutPidIsSmaller(pid, n);
      }
    } else {
      pid := ts[1].pid;
    }
  }

  /** The client's answer is right for every pid, whatever its variable held at first. */
  ghost predicate AnswersRight(ts: seq<Task>, garbage: nat) {
    forall pid: nat :: Mentions(Received(StatusText(ts)), pid, garbage) <==> HasPid(ts, pid)
  }

  lemma AnswerIsSeen(ts: seq<Task>, n: nat, pid: nat, garbage: nat)
    requires (forall t :: t in ts ==> t.pid < WORD) && n == |Received(StatusText(ts))|
    ensures Mentions(Received(StatusText(ts)), pid, garbage) <==> Seen(ts, n, pid)
  {
    assert Received(StatusText(ts)) == StatusText(ts)[..n];
    MentionsIffSeen(ts, n, pid, garbage);
  }

  /** The status round trip: for every list of tasks, the client finds exactly the pids on it
      if and only if the text up to the last pid fits its buffer. */
  lemma StatusRoundTrip(ts: seq<Task>, garbage: nat)
    requires Distinct(ts) && forall t :: t in ts ==> t.pid < WORD
    ensures AnswersRight(ts, garbage)
            <==> ts == [] || |StatusText(ts)| <= 1000 + |Details(ts[|ts| - 1])| + 2
  {
    var n := |Received(StatusText(ts))|;
    if ts == [] {
      forall pid: nat ensures Mentions(Received(StatusText(ts)), pid, garbage) <==> HasPid(ts, pid) {
        AnswerIsSeen(ts, n, pid, garbage);
      }
    } else {
      LastPidEndIs(ts);
      if LastPidEnd(ts) <= n {
        forall pid: nat ensures Mentions(Received(StatusText(ts)), pid, garbage) <==> HasPid(ts, pid) {
          AnswerIsSeen(ts, n, pid, garbage);
          ReadFarEnough(ts, n, pid);
        }
      } else {
        var pid := MissedPid(ts, n);
        AnswerIsSeen(ts, n, pid, garbage);
      }
    }
  }

  /** n tasks with the pids below n. */
  function Many(n: nat): (ts: seq<Task>)
    ensures |ts| == n && forall i :: 0 <= i < n ==> ts[i].pid == i
  {
    seq(n, i requires 0 <= i < n => Task(i, 1, 0, Sleeping, 0, false, None))
  }

  lemma {:induction false} LinesAreLong(ts: seq<Task>)
    requires ts != []
    ensures LastPidEnd(ts) >= |ts|
  {
    if |ts| > 1 {
      LinesAreLong(ts[1..]);
    }
  }

  /** A list on the other side: of 1001 tasks the client misses one. */
  lemma LongStatusMisleads(n: nat, garbage: nat) returns (pid: nat)
    requires n == 1001
    ensures Distinct(Many(n)) && !AnswersRight(Many(n), garbage)
    ensures HasPid(Many(n), pid) && !Mentions(Received(StatusText(Many(n))), pid, garbage)
  {
    var ts := Many(n);
    LinesAreLong(ts);
    forall t | t in ts ensures t.pid < WORD {}
    pid := MissedPid(ts, |Received(StatusText(ts))|);
    AnswerIsSeen(ts, |Received(StatusText(ts))|, pid, garbage);
  }
}
