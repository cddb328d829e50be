/** The blacklist: several managers cache one hand-editable file and reload it when its
    modification time changes. */
module Blacklist {
  import opened Options
  import opened Ordering
  import opened Text
  import opened Phone

  // -------------------------------------------------------------------------
  // The file
  // -------------------------------------------------------------------------

  type Lines = seq<string>

  function EntryOf(line: string): Option<string> {
    var stripped := Strip(line);
    if stripped == "" || stripped[0] == '#' then None else Normalize(stripped)
  }

  function Parse(lines: Lines): set<string> {
    if lines == [] then {}
    else (if EntryOf(lines[0]).Some? then {EntryOf(lines[0]).value} else {}) + Parse(lines[1..])
  }

  /** A missing file is an empty blacklist. */
  function ParseFile(content: Option<Lines>): set<string> {
    if content.Some? then Parse(content.value) else {}
  }

  ghost predicate IsLeast(m: string, s: set<string>) {
    m in s && forall x :: x in s ==> Leq(m, x)
  }

  lemma LesserIsLeast(a: string, m: string, t: set<string>)
    requires IsLeast(m, t)
    ensures IsLeast(a, t + {a}) || IsLeast(m, t + {a})
  {
    LeqTotal(a, m);
    LeqTotal(a, a);
    hide Leq;
    if Leq(a, m) {
      forall x | x in t ensures Leq(a, x) { LeqTransitive(a, m, x); }
    }
  }

  lemma {:induction false} LeastExists(s: set<string>)
    requires s != {}
    ensures exists m :: IsLeast(m, s)
  {
    var a :| a in s;
    var t := s - {a};
    assert s == t + {a};
    LeqTotal(a, a);
    hide Leq;
    if t == {} {
      assert IsLeast(a, s);
    } else {
      LeastExists(t);
      hide IsLeast;
      var m :| IsLeast(m, t);
      LesserIsLeast(a, m, t);
    }
  }

  ghost function Listing(s: set<string>): seq<string> {
    if s == {} then []
    else
      LeastExists(s);
      var m :| IsLeast(m, s);
      [m] + Listing(s - {m})
  }

  lemma {:induction false} ListingSorted(s: set<string>)
    ensures Sorted(Listing(s)) && multiset(Listing(s)) == multiset(s)
    ensures forall x :: x in Listing(s) <==> x in s
  {
    if s != {} {
      LeastExists(s);
      var l := Listing(s);
      var m, rest := l[0], l[1..];
      assert m in s && (forall x :: x in s ==> Leq(m, x)) && rest == Listing(s - {m});
      ListingSorted(s - {m});
      hide Listing;
      assert s == (s - {m}) + {m};
      assert l == [m] + rest;
      forall j | 0 <= j < |rest| ensures Leq(m, rest[j]) { assert rest[j] in rest; }
    }
  }

  const HEADER := "# SimBridge blacklist \U{2014} auto-generated"

  /** What a manager writes: two comment lines, then the numbers in order. */
  ghost function FileOf(numbers: set<string>, stamp: string): Lines {
    [HEADER, "# Last updated: " + stamp] + Listing(numbers)
  }

  ghost predicate AllCanonical(numbers: set<string>) {
    forall n :: n in numbers ==> Canonical(n)
  }

  lemma {:induction false} ParseCanonical(lines: Lines)
    ensures AllCanonical(Parse(lines))
  {
    if lines != [] {
      ParseCanonical(lines[1..]);
      var e := EntryOf(lines[0]);
      if e.Some? { NormalizedCanonical(Strip(lines[0])); }
    }
  }

  lemma CanonicalEntry(n: string)
    requires Canonical(n)
    ensures EntryOf(n) == Some(n)
  {
    CanonicalFixed(n);
    DigitsNotSpace(n[1..]);
    assert n == "+" + n[1..];
    StripTrimmed(n);
  }

  lemma {:induction false} ParseListed(l: seq<string>)
    requires forall x :: x in l ==> Canonical(x)
    ensures Parse(l) == set x | x in l
  {
    if l != [] {
      assert l[0] in l;
      CanonicalEntry(l[0]);
      ParseListed(l[1..]);
      assert forall x :: x in l <==> x == l[0] || x in l[1..];
    }
  }

  lemma CommentIgnored(line: string)
    requires line != "" && line[0] == '#'
    ensures EntryOf(line).None?
  {
    StripRightStops([], '#', line[1..]);
    assert [] + ['#'] + line[1..] == line;
    assert StripLeft(line) == line;
  }

  /** Writing the cached numbers and loading the file again is the identity. */
  lemma WriteThenLoad(numbers: set<string>, stamp: string)
    requires AllCanonical(numbers)
    ensures Parse(FileOf(numbers, stamp)) == numbers
  {
    var f := FileOf(numbers, stamp);
    CommentIgnored(f[0]);
    CommentIgnored(f[1]);
    assert f[1..][1..] == Listing(numbers);
    ListingSorted(numbers);
    hide EntryOf;
    ParseListed(Listing(numbers));
  }

  /** Blanks around it aside, the line is no comment and writes this number. */
  ghost predicate Lists(line: string, n: string) {
    exists a, core, b :: line == a + core + b && AllSpace(a) && AllSpace(b) && Writing(core, n)
  }

  ghost predicate Writing(core: string, n: string) {
    core != "" && Trimmed(core) && core[0] != '#' && Normalize(core) == Some(n)
  }

  lemma EntryExactly(line: string, n: string)
    ensures EntryOf(line) == Some(n) <==> Lists(line, n)
  {
    forall a, core, b | line == a + core + b && AllSpace(a) && AllSpace(b) && Writing(core, n)
      ensures EntryOf(line) == Some(n)
    {
      StripPad(a, core, b);
      StripTrimmed(core);
    }
    if EntryOf(line) == Some(n) {
      var a := SplitLeft(line);
      var b := SplitRight(StripLeft(line));
      StripIsTrimmed(line);
      Parted(line, a, StripLeft(line), Strip(line), b);
      assert Writing(Strip(line), n);
    }
  }

  lemma Parted(line: string, a: string, rest: string, core: string, b: string)
    requires line == a + rest && rest == core + b
    ensures line == a + core + b
  {
  }

  /** A file lists a number exactly when one of its lines does. */
  lemma {:induction false} ParseExactly(lines: Lines, n: string)
    ensures n in Parse(lines) <==> exists i :: 0 <= i < |lines| && Lists(lines[i], n)
  {
    hide EntryOf, Lists;
    if lines != [] {
      EntryExactly(lines[0], n);
      ParseExactly(lines[1..], n);
      assert forall i :: 0 <= i < |lines[1..]| ==> lines[1..][i] == lines[i + 1];
    }
  }

  // -------------------------------------------------------------------------
  // Managers and the file as values
  // -------------------------------------------------------------------------

  datatype Cache = Cache(numbers: set<string>, mtime: int)

  /** `versions` is the history of the file by modification time; 0 stands for a missing file. */
  datatype World = World(content: Option<Lines>, mtime: int, versions: map<int, Option<Lines>>, caches: seq<Cache>)

  datatype Op =
    | NewManager
    | Lookup(i: nat, number: string)
    | Block(i: nat, number: string, mtime: int, stamp: string)
    | Unblock(i: nat, number: string, mtime: int, stamp: string)
    | HandEdit(lines: Lines, mtime: int)
    | Delete

  function Reloaded(c: Cache, content: Option<Lines>, mtime: int): Cache {
    if mtime == c.mtime then c else Cache(ParseFile(content), mtime)
  }

  function WithFile(w: World, lines: Lines, mtime: int): World {
    w.(content := Some(lines), mtime := mtime, versions := w.versions[mtime := Some(lines)])
  }

  /** Every change of the file gives it a modification time it never had. */
  ghost predicate Enabled(w: World, op: Op) {
    match op
    case NewManager => true
    case Lookup(i, _) => i < |w.caches|
    case Block(i, _, t, _) => i < |w.caches| && t !in w.versions
    case Unblock(i, _, t, _) => i < |w.caches| && t !in w.versions
    case HandEdit(_, t) => t !in w.versions
    case Delete => true
  }

  ghost function Blocked(c: Cache, content: Option<Lines>, mtime: int, number: string): Option<set<string>> {
    var norm := Normalize(number);
    var c1 := Reloaded(c, content, mtime);
    if norm.None? || norm.value in c1.numbers then None else Some(c1.numbers + {norm.value})
  }

  ghost function Unblocked(c: Cache, content: Option<Lines>, mtime: int, number: string): Option<set<string>> {
    var norm := Normalize(number);
    var c1 := Reloaded(c, content, mtime);
    if norm.None? || norm.value !in c1.numbers then None else Some(c1.numbers - {norm.value})
  }

  /** `update` is the new set to write, or `None` when there is nothing to write; a malformed
      number does not even reload. */
  ghost function Rewritten(w: World, i: nat, number: string, update: Option<set<string>>, mtime: int,
                           stamp: string): World
    requires i < |w.caches|
  {
    if Normalize(number).None? then w
    else match update
      case None => w.(caches := w.caches[i := Reloaded(w.caches[i], w.content, w.mtime)])
      case Some(ns) => WithFile(w, FileOf(ns, stamp), mtime).(caches := w.caches[i := Cache(ns, mtime)])
  }

  ghost function Next(w: World, op: Op): World
    requires Enabled(w, op)
  {
    match op
    case NewManager => w.(caches := w.caches + [Cache(ParseFile(w.content), w.mtime)])
    case Lookup(i, _) => w.(caches := w.caches[i := Reloaded(w.caches[i], w.content, w.mtime)])
    case Block(i, n, t, stamp) => Rewritten(w, i, n, Blocked(w.caches[i], w.content, w.mtime, n), t, stamp)
    case Unblock(i, n, t, stamp) => Rewritten(w, i, n, Unblocked(w.caches[i], w.content, w.mtime, n), t, stamp)
    case HandEdit(lines, t) => WithFile(w, lines, t)
    case Delete => w.(content := None, mtime := 0)
  }

  /** A cache holds what the file was at the cache's modification time. */
  ghost predicate Coherent(c: Cache, versions: map<int, Option<Lines>>) {
    c.mtime in versions && c.numbers == ParseFile(versions[c.mtime])
  }

  ghost predicate Inv(w: World) {
    && 0 in w.versions && w.versions[0] == None
    && w.mtime in w.versions && w.versions[w.mtime] == w.content
    && forall i :: 0 <= i < |w.caches| ==> Coherent(w.caches[i], w.versions)
  }

  lemma ReloadedIsFile(c: Cache, w: World)
    requires Inv(w) && Coherent(c, w.versions)
    ensures Reloaded(c, w.content, w.mtime) == Cache(ParseFile(w.content), w.mtime)
  {
  }

  lemma FileCanonical(content: Option<Lines>)
    ensures AllCanonical(ParseFile(content))
  {
    if content.Some? { ParseCanonical(content.value); }
  }

  /** What the operation should do to the one set of numbers everybody shares. */
  function Ideal(s: set<string>, op: Op): set<string> {
    match op
    case NewManager => s
    case Lookup(_, _) => s
    case Block(_, n, _, _) => if Normalize(n).Some? then s + {Normalize(n).value} else s
    case Unblock(_, n, _, _) => if Normalize(n).Some? then s - {Normalize(n).value} else s
    case HandEdit(lines, _) => Parse(lines)
    case Delete => {}
  }

  lemma RewrittenFile(w: World, i: nat, number: string, update: Option<set<string>>, mtime: int, stamp: string)
    requires Inv(w) && i < |w.caches| && mtime !in w.versions
    requires update.Some? ==> AllCanonical(update.value)
    ensures var w' := Rewritten(w, i, number, update, mtime, stamp);
            && Inv(w')
            && ParseFile(w'.content)
               == if Normalize(number).Some? && update.Some? then update.value else ParseFile(w.content)
  {
    hide Normalize, FileOf, AllCanonical;
    if update.Some? { WriteThenLoad(update.value, stamp); }
    ReloadedIsFile(w.caches[i], w);
  }

  lemma NextFile(w: World, op: Op)
    requires Inv(w) && Enabled(w, op)
    ensures Inv(Next(w, op)) && ParseFile(Next(w, op).content) == Ideal(ParseFile(w.content), op)
  {
    FileCanonical(w.content);
    match op
    case Block(i, n, t, stamp) =>
      ReloadedIsFile(w.caches[i], w);
      if Normalize(n).Some? { NormalizedCanonical(n); }
      RewrittenFile(w, i, n, Blocked(w.caches[i], w.content, w.mtime, n), t, stamp);
    case Unblock(i, n, t, stamp) =>
      ReloadedIsFile(w.caches[i], w);
      RewrittenFile(w, i, n, Unblocked(w.caches[i], w.content, w.mtime, n), t, stamp);
    case _ =>
  }

  ghost predicate AllEnabled(w: World, ops: seq<Op>)
    decreases |ops|
  {
    ops == [] || (Enabled(w, ops[0]) && AllEnabled(Next(w, ops[0]), ops[1..]))
  }

  ghost function Run(w: World, ops: seq<Op>): World
    requires AllEnabled(w, ops)
    decreases |ops|
  {
    if ops == [] then w else Run(Next(w, ops[0]), ops[1..])
  }

  function IdealRun(s: set<string>, ops: seq<Op>): set<string>
    decreases |ops|
  {
    if ops == [] then s else IdealRun(Ideal(s, ops[0]), ops[1..])
  }

  const NO_FILE := World(None, 0, map[0 := None], [])

  lemma {:induction false} RunFile(w: World, ops: seq<Op>)
    requires Inv(w) && AllEnabled(w, ops)
    ensures Inv(Run(w, ops)) && ParseFile(Run(w, ops).content) == IdealRun(ParseFile(w.content), ops)
    decreases |ops|
  {
    if ops != [] {
      NextFile(w, ops[0]);
      hide Inv, Enabled, Next;
      RunFile(Next(w, ops[0]), ops[1..]);
    }
  }

  /** Any number of managers, hand edits and deletions, in any order: what a lookup answers next,
      on whichever manager, is membership of the normalized number in the file as it is now, and
      the file holds exactly the result of applying every operation to one shared set. */
  lemma Coherence(ops: seq<Op>, i: nat, number: string)
    requires AllEnabled(NO_FILE, ops) && i < |Run(NO_FILE, ops).caches|
    ensures var w := Run(NO_FILE, ops);
            var norm := Normalize(number);
            && (Answer(Reloaded(w.caches[i], w.content, w.mtime).numbers, number)
                <==> norm.Some? && norm.value in ParseFile(w.content))
            && ParseFile(w.content) == IdealRun({}, ops)
  {
    assert Inv(NO_FILE);
    RunFile(NO_FILE, ops);
    var w := Run(NO_FILE, ops);
    ReloadedIsFile(w.caches[i], w);
  }

  predicate Answer(numbers: set<string>, number: string) {
    var norm := Normalize(number);
    norm.Some? && norm.value in numbers
  }

  // -------------------------------------------------------------------------
  // A write that fails
  // -------------------------------------------------------------------------

  /** A cache that took a change which did not reach the file, whose modification time it still has. */
  ghost predicate Ahead(c: Cache, w: World) {
    c.mtime == w.mtime && AllCanonical(c.numbers) && c.numbers != ParseFile(w.content)
  }

  /** That manager answers as the file does if and only if the file has changed meanwhile. */
  lemma AheadAnswers(c: Cache, w: World, content: Option<Lines>, mtime: int)
    requires Ahead(c, w) && (mtime == w.mtime ==> content == w.content)
    ensures (forall x :: Answer(Reloaded(c, content, mtime).numbers, x) <==> Answer(ParseFile(content), x))
            <==> mtime != w.mtime
  {
    FileCanonical(w.content);
    if mtime == w.mtime {
      var x :| (x in c.numbers) != (x in ParseFile(w.content));
      CanonicalFixed(x);
      assert Answer(c.numbers, x) != Answer(ParseFile(content), x);
    }
    hide ParseFile, Normalize;
  }

  /** A failed block and a failed unblock both leave the manager ahead of the file. */
  lemma FailedWrite(w: World, i: nat, number: string, blocking: bool)
    requires Inv(w) && i < |w.caches|
    requires (if blocking then Blocked(w.caches[i], w.content, w.mtime, number)
              else Unblocked(w.caches[i], w.content, w.mtime, number)).Some?
    ensures var update := if blocking then Blocked(w.caches[i], w.content, w.mtime, number)
                          else Unblocked(w.caches[i], w.content, w.mtime, number);
            Ahead(Cache(update.value, w.mtime), w)
  {
    ReloadedIsFile(w.caches[i], w);
    FileCanonical(w.content);
    NormalizedCanonical(number);
    hide ParseFile, Normalize, Inv;
  }

  /** The change that failed reaches the file after all, with the next write of that manager that
      succeeds before the file has changed. */
  lemma PhantomWritten(c: Cache, w: World, number: string, blocking: bool, stamp: string)
    requires Ahead(c, w)
    requires (if blocking then Blocked(c, w.content, w.mtime, number)
              else Unblocked(c, w.content, w.mtime, number)).Some?
    ensures var update := if blocking then Blocked(c, w.content, w.mtime, number)
                          else Unblocked(c, w.content, w.mtime, number);
            var n := Normalize(number).value;
            Parse(FileOf(update.value, stamp)) == if blocking then c.numbers + {n} else c.numbers - {n}
  {
    NormalizedCanonical(number);
    hide ParseFile, Normalize;
    var n := Normalize(number).value;
    WriteThenLoad(if blocking then c.numbers + {n} else c.numbers - {n}, stamp);
  }

  // -------------------------------------------------------------------------
  // The manager object
  // -------------------------------------------------------------------------

  class Disk {
    var content: Option<Lines>
    var mtime: int
    ghost var versions: map<int, Option<Lines>>

    ghost predicate Valid()
      reads this
    {
      && 0 in versions && versions[0] == None
      && mtime in versions && versions[mtime] == content
    }
  }

  class BlacklistManager {
    const disk: Disk
    var numbers: set<string>
    var mtime: int

    ghost predicate Valid()
      reads this, disk
    {
      disk.Valid() && Coherent(View(), disk.versions)
    }

    function View(): Cache
      reads this
    {
      Cache(numbers, mtime)
    }

    constructor (disk: Disk)
      requires disk.Valid()
      ensures this.disk == disk && Valid() && numbers == ParseFile(disk.content)
    {
      this.disk := disk;
      numbers := {};
      mtime := 0;
      new;
      Load();
      mtime := disk.mtime;
    }

    /** Adds the numbers of the file to the cache. */
    method Load()
      modifies this`numbers
      ensures numbers == old(numbers) + ParseFile(disk.content)
    {
      if disk.content.None? { return; }
      var lines := disk.content.value;
      for k := 0 to |lines|
        invariant numbers + Parse(lines[k..]) == old(numbers) + Parse(lines)
      {
        assert lines[k..][1..] == lines[k + 1..];
        var stripped := Strip(lines[k]);
        if stripped != "" && stripped[0] != '#' {
          var norm := Normalize(stripped);
          if norm.Some? {
            numbers := numbers + {norm.value};
          }
        }
      }
    }

    method MaybeReload()
      requires Valid()
      modifies this
      ensures Valid()
      ensures View() == Reloaded(old(View()), disk.content, disk.mtime)
      ensures numbers == ParseFile(disk.content) && mtime == disk.mtime
    {
      if disk.mtime == mtime { return; }
      numbers := {};
      Load();
      mtime := disk.mtime;
    }

    method IsBlocked(number: string) returns (r: bool)
      requires Valid()
      modifies this
      ensures Valid() && r == Answer(ParseFile(disk.content), number)
      ensures View() == Reloaded(old(View()), disk.content, disk.mtime)
    {
      var norm := Normalize(number);
      MaybeReload();
      return norm.Some? && norm.value in numbers;
    }

    /** `sorted(numbers)`. */
    static method InOrder(numbers: set<string>) returns (sorted: seq<string>)
      ensures sorted == Listing(numbers)
    {
      var listing := [];
      var rest := numbers;
      while rest != {}
        invariant rest <= numbers && multiset(listing) == multiset(numbers - rest)
        decreases |rest|
      {
        var n :| n in rest;
        assert numbers - (rest - {n}) == (numbers - rest) + {n};
        listing := listing + [n];
        rest := rest - {n};
      }
      assert numbers - {} == numbers;
      SortSorts(listing);
      ListingSorted(numbers);
      SortedUnique(Sort(listing), Listing(numbers));
      return Sort(listing);
    }

    /** Rewrites the file; the system stamps it with a new modification time. */
    method Write(now: int, stamp: string)
      requires disk.Valid() && now !in disk.versions && AllCanonical(numbers)
      modifies this`mtime, disk
      ensures Valid() && disk.content == Some(FileOf(numbers, stamp)) && disk.mtime == mtime == now
      ensures disk.versions == old(disk.versions)[now := disk.content]
    {
      var sorted := InOrder(numbers);
      WriteThenLoad(numbers, stamp);
      disk.content := Some([HEADER, "# Last updated: " + stamp] + sorted);
      disk.mtime := now;
      disk.versions := disk.versions[now := disk.content];
      mtime := disk.mtime;
    }

    method BlockNumber(number: string, now: int, stamp: string) returns (added: bool)
      requires Valid() && now !in disk.versions
      modifies this, disk
      ensures Valid()
      ensures added == (Normalize(number).Some? && Normalize(number).value !in ParseFile(old(disk.content)))
      ensures added ==> ParseFile(disk.content) == ParseFile(old(disk.content)) + {Normalize(number).value}
      ensures added ==> disk.versions == old(disk.versions)[now := disk.content]
      ensures !added ==> disk.content == old(disk.content) && disk.versions == old(disk.versions)
    {
      var norm := Normalize(number);
      if norm.None? { return false; }
      MaybeReload();
      if norm.value in numbers { return false; }
      FileCanonical(disk.content);
      NormalizedCanonical(number);
      numbers := numbers + {norm.value};
      WriteThenLoad(numbers, stamp);
      Write(now, stamp);
      return true;
    }

    method UnblockNumber(number: string, now: int, stamp: string) returns (removed: bool)
      requires Valid() && now !in disk.versions
      modifies this, disk
      ensures Valid()
      ensures removed == (Normalize(number).Some? && Normalize(number).value in ParseFile(old(disk.content)))
      ensures removed ==> ParseFile(disk.content) == ParseFile(old(disk.content)) - {Normalize(number).value}
      ensures removed ==> disk.versions == old(disk.versions)[now := disk.content]
      ensures !removed ==> disk.content == old(disk.content) && disk.versions == old(disk.versions)
    {
      var norm := Normalize(number);
      if norm.None? { return false; }
      MaybeReload();
      if norm.value !in numbers { return false; }
      FileCanonical(disk.content);
      numbers := numbers - {norm.value};
      WriteThenLoad(numbers, stamp);
      Write(now, stamp);
      return true;
    }
  }
}
