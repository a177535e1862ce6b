/** Moving sessions out of the directories that older versions kept per
    working directory, into the flat root of all sessions. */
module SessionMigration {
  type Bytes = seq<bv8>

  /** A file or directory in the session root, or inside a directory there. */
  datatype Path = Root(name: string) | Under(dir: string, name: string)

  const SUFFIX := ".jsonl"

  predicate EndsWith(s: string, end: string) {
    |end| <= |s| && s[|s| - |end|..] == end
  }

  /** Two dashes, at least one character, none of them ending a line, and two dashes. */
  predicate LegacyDirName(name: string) {
    && |name| >= 5 && name[..2] == "--" && EndsWith(name, "--")
    && forall k | 2 <= k < |name| - 2 :: !EndsLine(name[k])
  }

  predicate EndsLine(c: char) {
    c == '\n' || c == '\r' || c == '\U{2028}' || c == '\U{2029}'
  }

  // ----- Names with a number

  function Digits(n: nat): (s: string)
    ensures if n < 10 then |s| == 1 else |s| >= 2
    decreases n
  {
    var last := "0123456789"[n % 10];
    if n < 10 then [last] else Digits(n / 10) + [last]
  }

  lemma {:induction false} DigitsDiffer(m: nat, n: nat)
    requires Digits(m) == Digits(n)
    ensures m == n
    decreases m
  {
    var a, b := Digits(m), Digits(n);
    assert a[|a| - 1] == "0123456789"[m % 10] && b[|b| - 1] == "0123456789"[n % 10];
    assert a[..|a| - 1] == b[..|b| - 1];
    if m >= 10 && n >= 10 {
      DigitsDiffer(m / 10, n / 10);
    }
  }

  function Base(file: string): (r: string) {
    if EndsWith(file, SUFFIX) then file[..|file| - |SUFFIX|] else file
  }

  function Candidate(file: string, n: nat): (r: string) {
    Base(file) + "-" + Digits(n) + SUFFIX
  }

  lemma CandidatesDiffer(file: string, m: nat, n: nat)
    requires Candidate(file, m) == Candidate(file, n)
    ensures m == n
  {
    var head := Base(file) + "-";
    var a, b := head + Digits(m) + SUFFIX, head + Digits(n) + SUFFIX;
    assert Digits(m) == a[|head|..|a| - |SUFFIX|] && Digits(n) == b[|head|..|b| - |SUFFIX|];
    DigitsDiffer(m, n);
  }

  /** Numbers whose candidates are all taken are no more than there are names taken. */
  lemma {:induction false} TakenBounds(file: string, n: nat, taken: set<string>)
    requires forall k | 1 <= k <= n :: Candidate(file, k) in taken
    ensures n <= |taken|
    decreases n
  {
    if n > 0 {
      var last := Candidate(file, n);
      forall k | 1 <= k <= n - 1 ensures Candidate(file, k) in taken - {last} {
        if Candidate(file, k) == last {
          CandidatesDiffer(file, k, n);
        }
      }
      TakenBounds(file, n - 1, taken - {last});
    }
  }

  /** The first number from `n` on whose candidate is free. */
  function FirstFree(file: string, n: nat, taken: set<string>): (m: nat)
    requires n >= 1 && forall k | 1 <= k < n :: Candidate(file, k) in taken
    ensures m >= n && Candidate(file, m) !in taken && forall k | 1 <= k < m :: Candidate(file, k) in taken
    decreases |taken| + 1 - n
  {
    TakenBounds(file, n - 1, taken);
    if Candidate(file, n) !in taken then n
    else
      TakenBounds(file, n, taken);
      FirstFree(file, n + 1, taken)
  }

  // ----- What a directory tree holds

  /** The contents of all files, each as often as there are files with it. */
  ghost function Contents(files: map<Path, Bytes>): (r: multiset<Bytes>)
    decreases |files|
  {
    if files == map[] then multiset{}
    else
      var p :| p in files;
      multiset{files[p]} + Contents(files - {p})
  }

  lemma SomeFirst(files: map<Path, Bytes>) returns (p: Path)
    requires files != map[]
    ensures p in files && Contents(files) == multiset{files[p]} + Contents(files - {p})
  {
    p :| p in files && Contents(files) == multiset{files[p]} + Contents(files - {p});
  }

  /** It does not matter which file is counted first. */
  lemma {:induction false} ContentsWithout(files: map<Path, Bytes>, p: Path)
    requires p in files
    ensures Contents(files) == multiset{files[p]} + Contents(files - {p})
    decreases |files|
  {
    hide Contents;
    var q := SomeFirst(files);
    if p != q {
      Smaller(files, q);
      Smaller(files, p);
      ContentsWithout(files - {q}, p);
      ContentsWithout(files - {p}, q);
      assert files - {q} - {p} == files - {p} - {q};
    }
  }

  lemma Smaller(files: map<Path, Bytes>, p: Path)
    requires p in files
    ensures |files - {p}| < |files|
  {
    assert (files - {p}).Keys == files.Keys - {p};
  }

  function Moved(files: map<Path, Bytes>, from: Path, to: Path): (r: map<Path, Bytes>)
    requires from in files
  {
    (files - {from})[to := files[from]]
  }

  /** What a migration looks at. */
  datatype Reader = Reader(isSession: Bytes -> bool, text: Bytes -> string)

  /** A session file in a legacy directory. */
  predicate Legacy(r: Reader, p: Path, content: Bytes) {
    p.Under? && LegacyDirName(p.dir) && EndsWith(p.name, SUFFIX) && r.isSession(content)
  }

  /** Same size and same text. */
  predicate SameContent(r: Reader, a: Bytes, b: Bytes) {
    |a| == |b| && r.text(a) == r.text(b)
  }

  /** Only legacy sessions go away or change. */
  predicate Stays(r: Reader, a: map<Path, Bytes>, b: map<Path, Bytes>) {
    forall p <- a | p.Root? || !Legacy(r, p, a[p]) :: p in b && a[p] == b[p]
  }

  /** What went away is now a file of the root that was not there before. */
  ghost predicate Lands(a: map<Path, Bytes>, b: map<Path, Bytes>) {
    forall p <- a | p !in b :: exists q <- b :: q.Root? && q !in a && b[q] == a[p]
  }

  /** Nothing is written into a directory of the root. */
  predicate OnlyLeaves(a: map<Path, Bytes>, b: map<Path, Bytes>) {
    forall p <- b | p.Under? :: p in a && a[p] == b[p]
  }

  /** A new file of the root is one that went away, and takes no name that a folder has. */
  ghost predicate Origins(blocked: set<string>, a: map<Path, Bytes>, b: map<Path, Bytes>) {
    forall q <- b | q !in a :: q.name !in blocked && exists p <- a :: p !in b && a[p] == b[q]
  }

  /** Who went away leaves no other file with his text under his name: that
      name is a folder's, or the root file that has it is new and himself, or has other content. */
  ghost predicate Apart(r: Reader, blocked: set<string>, a: map<Path, Bytes>, b: map<Path, Bytes>) {
    forall p <- a | p !in b :: p.name in blocked || (Root(p.name) in b && Unlike(r, a, b, p))
  }

  predicate Unlike(r: Reader, a: map<Path, Bytes>, b: map<Path, Bytes>, p: Path)
    requires p in a && Root(p.name) in b
  {
    SameContent(r, a[p], b[Root(p.name)]) ==> Root(p.name) !in a && b[Root(p.name)] == a[p]
  }

  /** What any part of a migration may do: the same contents, as often as
      before, and the rest as said above. `blocked` are the names that folders have. */
  ghost predicate Keeps(r: Reader, blocked: set<string>, a: map<Path, Bytes>, b: map<Path, Bytes>) {
    Contents(a) == Contents(b) && Stays(r, a, b) && Lands(a, b) && OnlyLeaves(a, b) && Origins(blocked, a, b) && Apart(r, blocked, a, b)
  }

  lemma KeepsSame(r: Reader, blocked: set<string>, a: map<Path, Bytes>)
    ensures Keeps(r, blocked, a, a)
  {
  }

  lemma LandsStill(r: Reader, a: map<Path, Bytes>, b: map<Path, Bytes>, c: map<Path, Bytes>)
    requires Stays(r, a, b) && Lands(a, b) && OnlyLeaves(a, b)
    requires Stays(r, b, c) && Lands(b, c)
    ensures Lands(a, c)
  {
    hide Legacy;
    forall p <- a | p !in c ensures exists q <- c :: q.Root? && q !in a && c[q] == a[p] {
      if p in b {
        assert p.Under? && b[p] == a[p];
        var q :| q in c && q.Root? && q !in b && c[q] == b[p];
        assert q !in a;
      } else {
        var q :| q in b && q.Root? && q !in a && b[q] == a[p];
        assert q in c && c[q] == b[q];
      }
    }
  }

  lemma OriginsStill(r: Reader, blocked: set<string>, a: map<Path, Bytes>, b: map<Path, Bytes>, c: map<Path, Bytes>)
    requires Stays(r, a, b) && OnlyLeaves(a, b) && Origins(blocked, a, b)
    requires Stays(r, b, c) && OnlyLeaves(b, c) && Origins(blocked, b, c)
    ensures Origins(blocked, a, c)
  {
    hide Legacy;
    forall q <- c | q !in a ensures q.name !in blocked && exists p <- a :: p !in c && a[p] == c[q] {
      if q in b {
        assert q.Root? && c[q] == b[q];
        var p :| p in a && p !in b && a[p] == b[q];
        assert p.Under?;
        assert p !in c;
      } else {
        var p :| p in b && p !in c && b[p] == c[q];
        assert p.Under?;
        assert p in a && a[p] == b[p];
      }
    }
  }

  lemma ApartStill(r: Reader, blocked: set<string>, a: map<Path, Bytes>, b: map<Path, Bytes>, c: map<Path, Bytes>)
    requires Stays(r, a, b) && OnlyLeaves(a, b) && Apart(r, blocked, a, b)
    requires Stays(r, b, c) && Apart(r, blocked, b, c)
    ensures Apart(r, blocked, a, c)
  {
    hide Legacy, SameContent;
    forall p <- a | p !in c && p.name !in blocked ensures Root(p.name) in c && Unlike(r, a, c, p) {
      if p in b {
        assert p.Under? && b[p] == a[p];
        assert Root(p.name) in c && Unlike(r, b, c, p);
      } else {
        assert Root(p.name) in b && Unlike(r, a, b, p);
        assert Root(p.name) in c && c[Root(p.name)] == b[Root(p.name)];
      }
    }
  }

  lemma KeepsMore(r: Reader, blocked: set<string>, a: map<Path, Bytes>, b: map<Path, Bytes>, c: map<Path, Bytes>)
    requires Keeps(r, blocked, a, b) && Keeps(r, blocked, b, c)
    ensures Keeps(r, blocked, a, c)
  {
    hide Contents, Legacy, Lands, Apart, Origins;
    LandsStill(r, a, b, c);
    OriginsStill(r, blocked, a, b, c);
    ApartStill(r, blocked, a, b, c);
  }

  lemma MoveKeeps(r: Reader, blocked: set<string>, a: map<Path, Bytes>, from: Path, to: Path)
    requires from in a && Legacy(r, from, a[from]) && to.Root? && to !in a && to.name !in blocked
    requires to == Root(from.name) || from.name in blocked || (Root(from.name) in a && !SameContent(r, a[from], a[Root(from.name)]))
    ensures Keeps(r, blocked, a, Moved(a, from, to))
  {
    hide Contents, SameContent;
    var b := Moved(a, from, to);
    ContentsWithout(a, from);
    ContentsWithout(b, to);
    assert b - {to} == a - {from};
    assert from !in b && to in b && b[to] == a[from];
  }

  predicate HasTwin(r: Reader, files: map<Path, Bytes>, p: Path)
    requires p in files
  {
    Root(p.name) in files && SameContent(r, files[p], files[Root(p.name)])
  }

  /** A twin has the same name, size and text. */
  lemma TwinMeans(r: Reader, files: map<Path, Bytes>, p: Path)
    requires p in files
    ensures HasTwin(r, files, p) <==>
            Root(p.name) in files && |files[p]| == |files[Root(p.name)]| && r.text(files[p]) == r.text(files[Root(p.name)])
  {
  }

  /** A legacy session: two dashes, text without line ends and two dashes for its
      directory, a name with the suffix of sessions, and the content of one. */
  lemma LegacyMeans(r: Reader, dir: string, name: string, content: Bytes)
    ensures Legacy(r, Under(dir, name), content) <==>
            && (exists middle :: middle != "" && (forall c <- middle :: c !in "\n\r\U{2028}\U{2029}") && dir == "--" + middle + "--")
            && (exists base :: name == base + ".jsonl")
            && r.isSession(content)
  {
    if Legacy(r, Under(dir, name), content) {
      var middle, base := dir[2..|dir| - 2], name[..|name| - 6];
      assert dir == dir[..2] + middle + dir[|dir| - 2..] && name == base + name[|name| - 6..];
      forall c <- middle ensures c !in "\n\r\U{2028}\U{2029}" {
        var k :| 0 <= k < |middle| && middle[k] == c;
        assert dir[k + 2] == c;
      }
      assert dir == "--" + middle + "--" && name == base + ".jsonl";
    }
    forall middle, base | middle != "" && (forall c <- middle :: c !in "\n\r\U{2028}\U{2029}") && dir == "--" + middle + "--" && name == base + ".jsonl"
      ensures LegacyDirName(dir) && EndsWith(name, SUFFIX)
    {
      assert forall k | 2 <= k < |dir| - 2 :: dir[k] == middle[k - 2] && middle[k - 2] in middle;
      assert name[|name| - 6..] == ".jsonl" && dir[|dir| - 2..] == "--";
    }
  }

  /** The number that digits stand for. */
  function Value(s: string): (n: int) {
    if s == "" then 0 else 10 * Value(s[..|s| - 1]) + (s[|s| - 1] as int - '0' as int)
  }

  lemma {:induction false} DigitsRead(n: nat)
    ensures Value(Digits(n)) == n && (n > 0 ==> Digits(n)[0] != '0') && forall c <- Digits(n) :: '0' <= c <= '9'
    decreases n
  {
    var d, last := Digits(n), "0123456789"[n % 10];
    assert last as int - '0' as int == n % 10;
    if n < 10 {
      assert d[..0] == "" && Value("") == 0;
    } else {
      DigitsRead(n / 10);
      assert d[..|d| - 1] == Digits(n / 10) && d[|d| - 1] == last;
    }
  }

  /** A numbered name is the name without its suffix, a dash, the number in decimal, and the suffix. */
  lemma CandidateMeans(base: string, n: nat)
    ensures Candidate(base + ".jsonl", n) == base + "-" + Digits(n) + ".jsonl" && Value(Digits(n)) == n
  {
    DigitsRead(n);
    assert (base + ".jsonl")[|base|..] == ".jsonl" && (base + ".jsonl")[..|base|] == base;
  }

  /** Nothing is left to do within `scope`: its legacy sessions have their twins in the root. */
  ghost predicate Done(r: Reader, files: map<Path, Bytes>, scope: iset<Path>) {
    forall p <- files | p in scope && Legacy(r, p, files[p]) :: HasTwin(r, files, p)
  }

  ghost predicate Settled(r: Reader, files: map<Path, Bytes>, refused: set<Path>) {
    Done(r, files, iset p: Path | p !in refused)
  }

  lemma DoneStays(r: Reader, blocked: set<string>, a: map<Path, Bytes>, b: map<Path, Bytes>, scope: iset<Path>)
    requires Keeps(r, blocked, a, b) && Done(r, a, scope)
    ensures Done(r, b, scope)
  {
    hide Contents, Lands, Origins, Apart, SameContent;
    forall p <- b | p in scope && Legacy(r, p, b[p]) ensures HasTwin(r, b, p) {
      assert p in a && a[p] == b[p];
      assert HasTwin(r, a, p);
    }
  }

  // ----- A migration, session by session

  /** The names of sessions that files and folders of the root have. */
  function Taken(files: map<Path, Bytes>, blocked: set<string>): (r: set<string>) {
    (set p <- files | p.Root? :: p.name) + blocked
  }

  /** Where a session goes that does not stay: to its own name, or to the first numbered one that is free. */
  function Goal(files: map<Path, Bytes>, blocked: set<string>, name: string): (r: Path) {
    var taken := Taken(files, blocked);
    Root(if name !in taken then name else Candidate(name, FirstFree(name, 1, taken)))
  }

  /** What coming to one path does, unless it is refused. */
  function One(r: Reader, blocked: set<string>, files: map<Path, Bytes>, p: Path): (after: map<Path, Bytes>) {
    if p !in files || !Legacy(r, p, files[p]) || HasTwin(r, files, p) then files
    else Moved(files, p, Goal(files, blocked, p.name))
  }

  /** What coming to the paths of `order`, one after the other, does. */
  function After(r: Reader, blocked: set<string>, files: map<Path, Bytes>, order: seq<Path>, refused: set<Path>): (after: map<Path, Bytes>)
    decreases |order|
  {
    if order == [] then files
    else
      var n := |order| - 1;
      var before := After(r, blocked, files, order[..n], refused);
      if order[n] in refused then before else One(r, blocked, before, order[n])
  }

  lemma AfterMore(r: Reader, blocked: set<string>, files: map<Path, Bytes>, order: seq<Path>, p: Path, refused: set<Path>)
    ensures var before := After(r, blocked, files, order, refused);
            After(r, blocked, files, order + [p], refused) == if p in refused then before else One(r, blocked, before, p)
  {
    hide One;
    assert (order + [p])[..|order|] == order;
  }

  lemma {:induction false} AfterAppend(r: Reader, blocked: set<string>, files: map<Path, Bytes>, a: seq<Path>, b: seq<Path>, refused: set<Path>)
    ensures After(r, blocked, files, a + b, refused) == After(r, blocked, After(r, blocked, files, a, refused), b, refused)
    decreases |b|
  {
    hide One;
    if b == [] {
      assert a + b == a;
    } else {
      var n := |b| - 1;
      AfterAppend(r, blocked, files, a, b[..n], refused);
      assert (a + b)[..|a + b| - 1] == a + b[..n] && (a + b)[|a + b| - 1] == b[n];
    }
  }

  /** Refusing what the order does not come to makes no difference. */
  lemma {:induction false} AfterIgnores(r: Reader, blocked: set<string>, files: map<Path, Bytes>, order: seq<Path>, one: set<Path>, two: set<Path>)
    requires forall p <- order :: p in one <==> p in two
    ensures After(r, blocked, files, order, one) == After(r, blocked, files, order, two)
    decreases |order|
  {
    hide One;
    if order != [] {
      var n := |order| - 1;
      assert order[n] in order && forall p <- order[..n] :: p in order;
      AfterIgnores(r, blocked, files, order[..n], one, two);
    }
  }

  /** Coming to one path concerns that path and the root alone, and no root file changes. */
  lemma OneKeeps(r: Reader, blocked: set<string>, files: map<Path, Bytes>, p: Path)
    ensures var after := One(r, blocked, files, p);
            && (forall q <- files | q.Root? || q != p :: q in after && after[q] == files[q])
            && (forall q <- after | q !in files :: q == Goal(files, blocked, p.name) && p in files && p !in after && after[q] == files[p])
            && (p in files && Legacy(r, p, files[p]) ==> (p in after <==> HasTwin(r, files, p)))
            && (p in after ==> p in files && after[p] == files[p])
  {
    hide FirstFree, SameContent, LegacyDirName, EndsWith;
  }

  lemma {:induction false} AfterKeeps(r: Reader, blocked: set<string>, files: map<Path, Bytes>, order: seq<Path>, refused: set<Path>, q: Path)
    requires q in files && (q.Root? || q !in order)
    ensures var after := After(r, blocked, files, order, refused); q in after && after[q] == files[q]
    decreases |order|
  {
    hide One;
    if order != [] {
      var n := |order| - 1;
      assert order[n] in order && forall p <- order[..n] :: p in order;
      AfterKeeps(r, blocked, files, order[..n], refused, q);
      OneKeeps(r, blocked, After(r, blocked, files, order[..n], refused), order[n]);
    }
  }

  lemma {:induction false} AfterLeaves(r: Reader, blocked: set<string>, files: map<Path, Bytes>, order: seq<Path>, refused: set<Path>, q: Path)
    requires q.Under? && q !in files
    ensures q !in After(r, blocked, files, order, refused)
    decreases |order|
  {
    hide One;
    if order != [] {
      var n := |order| - 1;
      AfterLeaves(r, blocked, files, order[..n], refused, q);
      OneKeeps(r, blocked, After(r, blocked, files, order[..n], refused), order[n]);
    }
  }

  /** From the tree before, the listing order and the refusals: a session stays
      just when it is refused, or when those that come before it leave a root
      file of its name, size and text. */
  lemma StaysByOrder(r: Reader, blocked: set<string>, files: map<Path, Bytes>, order: seq<Path>, refused: set<Path>, i: nat)
    requires NoRepeat(order) && i < |order| && order[i] in files && Legacy(r, order[i], files[order[i]])
    ensures var p, mid := order[i], After(r, blocked, files, order[..i], refused);
            && p in mid && mid[p] == files[p]
            && (p in After(r, blocked, files, order, refused) <==> p in refused || HasTwin(r, mid, p))
  {
    hide One, After, SameContent, HasTwin;
    var p, mid := order[i], After(r, blocked, files, order[..i], refused);
    assert p.Under? && p !in order[..i] && p !in order[i + 1..];
    AfterKeeps(r, blocked, files, order[..i], refused, p);
    assert order == (order[..i] + [p]) + order[i + 1..];
    AfterAppend(r, blocked, files, order[..i] + [p], order[i + 1..], refused);
    AfterMore(r, blocked, files, order[..i], p, refused);
    OneKeeps(r, blocked, mid, p);
    var next := After(r, blocked, files, order[..i] + [p], refused);
    if p in next {
      AfterKeeps(r, blocked, next, order[i + 1..], refused, p);
    } else {
      AfterLeaves(r, blocked, next, order[i + 1..], refused, p);
    }
  }

  /** No session in `order` has the name, or could be given it as a numbered one. */
  ghost predicate NoClaim(order: seq<Path>, name: string) {
    forall x <- order :: x.name != name && forall n: nat :: Candidate(x.name, n) != name
  }

  lemma {:induction false} NobodyTakes(r: Reader, blocked: set<string>, files: map<Path, Bytes>, order: seq<Path>, refused: set<Path>, name: string)
    requires Root(name) !in files && NoClaim(order, name)
    ensures Root(name) !in After(r, blocked, files, order, refused)
    decreases |order|
  {
    hide One, Candidate;
    if order != [] {
      var n := |order| - 1;
      assert order[n] in order && forall p <- order[..n] :: p in order;
      NobodyTakes(r, blocked, files, order[..n], refused, name);
      OneKeeps(r, blocked, After(r, blocked, files, order[..n], refused), order[n]);
    }
  }

  /** Two sessions of one name, one size and one text, in different directories:
      if nothing has the name before and nobody claims it earlier, the one
      listed first gets the name in the root, and the other stays where it is. */
  lemma FirstListedWins(r: Reader, blocked: set<string>, files: map<Path, Bytes>, order: seq<Path>, refused: set<Path>, i: nat, j: nat)
    requires NoRepeat(order) && i < j < |order| && order[i] in files && order[j] in files
    requires Legacy(r, order[i], files[order[i]]) && Legacy(r, order[j], files[order[j]])
    requires order[i] !in refused && order[j] !in refused
    requires order[i].name == order[j].name && SameContent(r, files[order[j]], files[order[i]])
    requires var name := order[i].name; Root(name) !in files && name !in blocked && NoClaim(order[..i], name)
    ensures var after := After(r, blocked, files, order, refused);
            && Root(order[i].name) in after && after[Root(order[i].name)] == files[order[i]]
            && order[i] !in after && order[j] in after
  {
    hide After, One, SameContent, NoClaim, LegacyDirName, EndsWith;
    var p, root := order[i], Root(order[i].name);
    NobodyTakes(r, blocked, files, order[..i], refused, p.name);
    StaysByOrder(r, blocked, files, order, refused, i);
    StaysByOrder(r, blocked, files, order, refused, j);
    AfterMore(r, blocked, files, order[..i], p, refused);
    var mid := After(r, blocked, files, order[..i], refused);
    GoesToItsName(r, blocked, mid, p);
    var next := order[..i] + [p];
    assert order[..j] == next + order[i + 1..j] && order == next + order[i + 1..];
    AfterAppend(r, blocked, files, next, order[i + 1..j], refused);
    AfterAppend(r, blocked, files, next, order[i + 1..], refused);
    var won := After(r, blocked, files, next, refused);
    AfterKeeps(r, blocked, won, order[i + 1..j], refused, root);
    AfterKeeps(r, blocked, won, order[i + 1..], refused, root);
  }

  lemma GoesToItsName(r: Reader, blocked: set<string>, files: map<Path, Bytes>, p: Path)
    requires p in files && Legacy(r, p, files[p]) && Root(p.name) !in files && p.name !in blocked
    ensures var after := One(r, blocked, files, p); Root(p.name) in after && after[Root(p.name)] == files[p]
  {
    hide FirstFree, LegacyDirName, EndsWith;
  }

  // ----- What becomes of a session

  /** Every legacy session is in the root after a migration that refused it
      nothing: byte for byte, or as the text of the file that has its name. */
  lemma EverySessionIsInTheRoot(r: Reader, blocked: set<string>, before: map<Path, Bytes>, after: map<Path, Bytes>, refused: set<Path>, p: Path)
    requires Keeps(r, blocked, before, after) && Settled(r, after, refused)
    requires p in before && Legacy(r, p, before[p]) && p !in refused
    ensures exists q <- after :: q.Root? && (after[q] == before[p] || (q.name == p.name && SameContent(r, before[p], after[q])))
  {
    hide Contents, Legacy;
    if p in after {
      assert HasTwin(r, after, p);
    }
  }

  /** A legacy session whose name a file of the root has from the start stays
      where it is just when it was refused, or that file is of its size and text. */
  lemma StaysExactly(r: Reader, blocked: set<string>, before: map<Path, Bytes>, after: map<Path, Bytes>, refused: set<Path>, p: Path)
    requires Keeps(r, blocked, before, after) && Settled(r, after, refused) && forall q <- refused :: q in after
    requires p in before && Legacy(r, p, before[p]) && Root(p.name) in before && p.name !in blocked
    ensures p in after <==>
              p in refused || (|before[p]| == |before[Root(p.name)]| && r.text(before[p]) == r.text(before[Root(p.name)]))
  {
    hide Contents, Legacy, Lands, Origins, SameContent;
    TwinMeans(r, before, p);
    assert after[Root(p.name)] == before[Root(p.name)];
    if p in after && p !in refused {
      assert HasTwin(r, after, p);
    } else if p !in after {
      assert Unlike(r, before, after, p);
    }
  }

  /** A content that only one legacy session has reaches the root just when the
      session was not refused and the root file that has its name afterwards
      is not another content of the same size and text. */
  lemma BytesArriveExactly(r: Reader, blocked: set<string>, before: map<Path, Bytes>, after: map<Path, Bytes>, refused: set<Path>, p: Path)
    requires Keeps(r, blocked, before, after) && Settled(r, after, refused) && forall q <- refused :: q in after
    requires p in before && Legacy(r, p, before[p]) && forall q <- before | before[q] == before[p] :: q == p
    requires p.name in blocked ==> Root(p.name) !in before
    ensures (exists q <- after :: q.Root? && after[q] == before[p])
            <==> p !in refused && !(Root(p.name) in after && Shadows(r, after[Root(p.name)], before[p]))
  {
    hide Contents, LegacyDirName, EndsWith, SameContent;
    if q :| q in after && q.Root? && after[q] == before[p] {
      assert q !in before;
      var from :| from in before && from !in after && before[from] == after[q];
      assert from == p && p !in after;
    } else if p in after && p !in refused {
      assert HasTwin(r, after, p);
    }
  }

  /** The same from the tree before, the listing order and the refusals: it
      reaches the root just when the session is not refused and those that
      come before it leave no root file of its name, size and text. */
  lemma BytesArriveByOrder(r: Reader, blocked: set<string>, before: map<Path, Bytes>, order: seq<Path>, refused: set<Path>, i: nat)
    requires NoRepeat(order) && i < |order| && order[i] in before && Legacy(r, order[i], before[order[i]])
    requires forall q <- before | before[q] == before[order[i]] :: q == order[i]
    requires Keeps(r, blocked, before, After(r, blocked, before, order, refused))
    ensures var p, mid, after := order[i], After(r, blocked, before, order[..i], refused), After(r, blocked, before, order, refused);
            p in mid && ((exists q <- after :: q.Root? && after[q] == before[p]) <==> p !in refused && !HasTwin(r, mid, p))
  {
    hide Contents, After, LegacyDirName, EndsWith, HasTwin, Apart, SameContent;
    StaysByOrder(r, blocked, before, order, refused, i);
    var p, after := order[i], After(r, blocked, before, order, refused);
    if q :| q in after && q.Root? && after[q] == before[p] {
      assert q !in before;
      var from :| from in before && from !in after && before[from] == after[q];
      assert from == p && p !in after;
    }
  }

  /** Another content that passes for this one. */
  predicate Shadows(r: Reader, other: Bytes, content: Bytes) {
    other != content && SameContent(r, content, other)
  }

  /** When the text tells all contents of one size in the tree apart, every session is in the root byte for byte. */
  lemma NoSessionIsLost(r: Reader, blocked: set<string>, before: map<Path, Bytes>, after: map<Path, Bytes>, refused: set<Path>, p: Path)
    requires Keeps(r, blocked, before, after) && Settled(r, after, refused)
    requires p in before && Legacy(r, p, before[p]) && p !in refused
    requires forall q <- before :: !Shadows(r, before[q], before[p])
    ensures exists q <- after :: q.Root? && after[q] == before[p]
  {
    hide Contents, Legacy, SameContent;
    if p in after {
      var twin := Root(p.name);
      assert HasTwin(r, after, p);
      if twin !in before {
        var from :| from in before && from !in after && before[from] == after[twin];
        assert !Shadows(r, before[from], before[p]);
      }
    }
  }

  /** Such a tree: the root file shadows a session of its name, nothing is left
      to do, and the bytes of the session are in no file of the root. */
  lemma ShadowedSessionStays(r: Reader, dir: string, name: string, a: Bytes, b: Bytes)
    requires Legacy(r, Under(dir, name), a) && Shadows(r, b, a)
    ensures var files: map<Path, Bytes> := map[Under(dir, name) := a, Root(name) := b];
            Settled(r, files, {}) && forall q <- files :: q.Root? ==> files[q] != a
  {
    hide LegacyDirName, EndsWith, SameContent;
  }

  predicate NoRepeat<T(==)>(names: seq<T>) {
    forall i, j | 0 <= i < j < |names| :: names[i] != names[j]
  }

  /** The names in some order, as a directory lists them. */
  method Listing(names: set<string>) returns (order: seq<string>)
    ensures forall n :: n in order <==> n in names
    ensures NoRepeat(order)
  {
    order := [];
    var rest := names;
    while rest != {}
      invariant rest <= names && NoRepeat(order)
      invariant forall n :: n in order <==> n in names - rest
    {
      var n :| n in rest;
      assert forall i | 0 <= i < |order| :: order[i] in order;
      order := order + [n];
      rest := rest - {n};
    }
  }

  class SessionRoot {
    var files: map<Path, Bytes>
    var folders: set<Path>
    const reader: Reader

    function Names(): (r: set<string>)
      reads this
    {
      (set p <- files | p.Root? :: p.name) + (set p <- folders | p.Root? :: p.name)
    }

    function NamesIn(dir: string): (r: set<string>)
      reads this
    {
      (set p <- files | p.Under? && p.dir == dir :: p.name) + (set p <- folders | p.Under? && p.dir == dir :: p.name)
    }

    /** The names of sessions that folders of the root have. */
    function Blocked(): (r: set<string>)
      reads this
    {
      set q <- folders | q.Root? && EndsWith(q.name, SUFFIX) :: q.name
    }

    lemma NamesAgree(name: string)
      requires EndsWith(name, SUFFIX)
      ensures name in Names() <==> name in Taken(files, Blocked())
    {
      hide EndsWith;
    }

    /** The first numbered name that is free; there is one, for only so many names are taken. */
    method UniqueSessionRootPath(file: string) returns (path: Path)
      ensures path.Root? && path.name !in Names()
      ensures path == Root(Candidate(file, FirstFree(file, 1, Taken(files, Blocked()))))
      ensures exists n: nat :: && 1 <= n <= |Names()| + 1 && path.name == Candidate(file, n)
                               && forall k | 1 <= k < n :: Candidate(file, k) in Names()
    {
      var n := 1;
      while Candidate(file, n) in Names()
        invariant n >= 1 && forall k | 1 <= k < n :: Candidate(file, k) in Names()
        decreases |Names()| + 1 - n
      {
        TakenBounds(file, n, Names());
        n := n + 1;
      }
      TakenBounds(file, n - 1, Names());
      forall k ensures Candidate(file, k) in Names() <==> Candidate(file, k) in Taken(files, Blocked()) {
        CandidateEnds(file, k);
        NamesAgree(Candidate(file, k));
      }
      FreeIs(file, n, Taken(files, Blocked()));
      path := Root(Candidate(file, n));
    }

    method MigrateFile(dir: string, file: string) returns (refused: bool)
      requires LegacyDirName(dir) && EndsWith(file, SUFFIX)
      modifies this`files
      ensures Keeps(reader, Blocked(), old(files), files)
      ensures !refused ==> files == One(reader, Blocked(), old(files), Under(dir, file))
      ensures var p := Under(dir, file);
              p in files && Legacy(reader, p, files[p]) && !refused ==> HasTwin(reader, files, p)
      ensures var p := Under(dir, file);
              p in old(files) && Legacy(reader, p, old(files)[p]) ==> (p in files <==> refused || HasTwin(reader, old(files), p))
      ensures forall p <- old(files) :: p.Under? && p != Under(dir, file) ==> p in files
      ensures refused ==> files == old(files) && Under(dir, file) in files
      ensures (var p := Under(dir, file);
               p in old(files) && Legacy(reader, p, old(files[p])) ==> HasTwin(reader, old(files), p)) ==> files == old(files)
    {
      hide Keeps, SameContent, LegacyDirName, EndsWith, FirstFree;
      NamesAgree(file);
      var oldPath, newPath := Under(dir, file), Root(file);
      refused := false;
      KeepsSame(reader, Blocked(), files);
      if oldPath !in files || !reader.isSession(files[oldPath]) {
        return;
      }
      if newPath.name in Names() {
        if newPath in files && SameContent(reader, files[oldPath], files[newPath]) {
          return;
        }
        newPath := UniqueSessionRootPath(file);
      }
      refused := *;
      if !refused {
        MoveKeeps(reader, Blocked(), files, oldPath, newPath);
        files := Moved(files, oldPath, newPath);
      }
    }

    method MigrateDir(dir: string) returns (refused: set<Path>, ghost order: seq<Path>)
      requires LegacyDirName(dir)
      modifies this
      ensures Keeps(reader, Blocked(), old(files), files)
      ensures Blocked() == old(Blocked())
      ensures files == After(reader, Blocked(), old(files), order, refused)
      ensures NoRepeat(order) && forall p <- order :: p.Under? && p.dir == dir
      ensures forall p <- old(files) | p.Under? && p.dir == dir :: p in order || p in refused
      ensures Done(reader, files, iset p: Path | p.Under? && p.dir == dir && p !in refused)
      ensures forall p <- refused :: p in files && p.Under? && p.dir == dir
      ensures forall p <- old(files) | p.Under? && p.dir != dir :: p in files
      ensures Settled(reader, old(files), {}) ==> files == old(files)
      ensures folders <= old(folders) <= folders + {Root(dir)}
      ensures Root(dir) !in folders && Root(dir) in old(folders) ==> forall p <- files :: !(p.Under? && p.dir == dir)
    {
      hide Keeps, HasTwin, LegacyDirName, EndsWith;
      ghost var before, blocked := files, Blocked();
      KeepsSame(reader, Blocked(), files);
      var readable: bool := *;
      if !readable {
        refused, order := (set p <- files | p.Under? && p.dir == dir), [];
        return;
      }
      var names := Listing(NamesIn(dir));
      refused := MigrateListed(dir, names);
      order := Listed(dir, names);
      assert forall p <- before | p.Under? && p.dir == dir :: p.name in names;
      LeavesOnly(reader, blocked, before, files);
      var removable: bool := *;
      if NamesIn(dir) == {} && removable {
        assert forall p <- files | p.Under? && p.dir == dir :: p.name in NamesIn(dir);
        NotBlocked(dir);
        folders := folders - {Root(dir)};
        assert Blocked() == blocked;
      }
    }

    method MigrateListed(dir: string, names: seq<string>) returns (refused: set<Path>)
      requires LegacyDirName(dir) && NoRepeat(names)
      modifies this`files
      ensures Keeps(reader, Blocked(), old(files), files)
      ensures files == After(reader, Blocked(), old(files), Listed(dir, names), refused)
      ensures forall p <- refused :: p in files && p in Listed(dir, names)
      ensures forall p <- old(files) | p.Under? && p.dir != dir :: p in files
      ensures Done(reader, files, iset n | n in names && Under(dir, n) !in refused :: Under(dir, n))
      ensures Settled(reader, old(files), {}) ==> files == old(files)
    {
      hide Keeps, Done, LegacyDirName;
      ghost var before, blocked := files, Blocked();
      KeepsSame(reader, Blocked(), files);
      refused := {};
      assert Done(reader, files, iset{}) by {
        NothingToDo(reader, files);
      }
      ghost var scope: iset<Path> := iset{};
      for i := 0 to |names|
        invariant Keeps(reader, blocked, before, files) && blocked == Blocked()
        invariant Settled(reader, before, {}) ==> files == before
        invariant Done(reader, files, scope)
        invariant forall n <- names[..i] :: Under(dir, n) in scope || Under(dir, n) in refused
        invariant files == After(reader, blocked, before, Listed(dir, names[..i]), refused)
        invariant forall p <- refused :: p in files && p.Under? && p.dir == dir && p.name in names[..i]
        invariant forall p <- before | p.Under? && p.dir != dir :: p in files
      {
        ghost var now := files;
        var p := Under(dir, names[i]);
        var r := MigrateName(dir, names[i]);
        Fresh(names, i);
        ghost var seen, known := Listed(dir, names[..i]), refused;
        assert Listed(dir, names[..i + 1]) == seen + [p];
        KeepsMore(reader, blocked, before, now, files);
        DoneStays(reader, blocked, now, files, scope);
        if r {
          refused := refused + {p};
        } else {
          DoneBoth(reader, files, scope, iset{p});
          scope := scope + iset{p};
        }
        AfterIgnores(reader, blocked, before, seen, known, refused);
        AfterMore(reader, blocked, before, seen, p, refused);
      }
      assert names[..|names|] == names;
      DoneWithin(reader, files, scope, iset n | n in names && Under(dir, n) !in refused :: Under(dir, n));
    }

    method MigrateName(dir: string, name: string) returns (refused: bool)
      requires LegacyDirName(dir)
      modifies this`files
      ensures Keeps(reader, Blocked(), old(files), files)
      ensures files == if refused then old(files) else One(reader, Blocked(), old(files), Under(dir, name))
      ensures !refused ==> Done(reader, files, iset{Under(dir, name)})
      ensures refused ==> Under(dir, name) in files
      ensures forall p <- old(files) :: p.Under? && p != Under(dir, name) ==> p in files
      ensures Settled(reader, old(files), {}) ==> files == old(files)
    {
      hide Keeps, LegacyDirName, EndsWith, HasTwin;
      refused := false;
      KeepsSame(reader, Blocked(), files);
      if EndsWith(name, SUFFIX) {
        refused := MigrateFile(dir, name);
      }
    }

    /** Moves every session that a legacy directory holds and that is not yet in
        the root; `refused` are those that the system would not list or rename,
        `order` is the order in which it came to the others. */
    method MigrateLegacySessionDirs() returns (refused: set<Path>, ghost order: seq<Path>)
      requires forall p <- files :: p.Under? ==> Root(p.dir) in folders
      modifies this
      ensures Keeps(reader, Blocked(), old(files), files)
      ensures Settled(reader, files, refused) && Blocked() == old(Blocked())
      ensures forall p <- refused :: p in files
      ensures files == After(reader, Blocked(), old(files), order, refused) && NoRepeat(order)
      ensures forall p <- old(files) :: Legacy(reader, p, old(files)[p]) ==> p in order || p in refused
      ensures Settled(reader, old(files), {}) ==> files == old(files)
      ensures folders <= old(folders) && forall p <- files :: p.Under? ==> Root(p.dir) in folders
      ensures forall q <- old(folders) | q !in folders :: q.Root? && LegacyDirName(q.name)
    {
      hide Keeps, Done, LegacyDirName;
      ghost var before, blocked := files, Blocked();
      KeepsSame(reader, Blocked(), files);
      refused, order := {}, [];
      ghost var scope: iset<Path> := iset{};
      NothingToDo(reader, files);
      var entries := Listing(set p <- folders | p.Root? :: p.name);
      for i := 0 to |entries|
        invariant Keeps(reader, blocked, before, files) && blocked == Blocked()
        invariant Settled(reader, before, {}) ==> files == before
        invariant Done(reader, files, scope)
        invariant folders <= old(folders) && forall p <- files :: p.Under? ==> Root(p.dir) in folders
        invariant forall q <- old(folders) | q !in folders :: q.Root? && LegacyDirName(q.name)
        invariant forall p: Path | p.Under? && LegacyDirName(p.dir) && p.dir in entries[..i] :: p in scope || p in refused
        invariant forall p <- refused :: p in files && p.Under? && p.dir in entries[..i]
        invariant files == After(reader, blocked, before, order, refused) && NoRepeat(order)
        invariant forall p <- order :: p.Under? && p.dir in entries[..i]
        invariant forall p <- before | p.Under? && p.dir !in entries[..i] :: p in files
        invariant forall p <- before | p.Under? && LegacyDirName(p.dir) && p.dir in entries[..i] :: p in order || p in refused
      {
        ghost var now := files;
        var dir := entries[i];
        Fresh(entries, i);
        if LegacyDirName(dir) {
          var r;
          ghost var come;
          r, come := MigrateDir(dir);
          AfterIgnores(reader, blocked, before, order, refused, refused + r);
          AfterIgnores(reader, blocked, now, come, r, refused + r);
          AfterAppend(reader, blocked, before, order, come, refused + r);
          NoRepeatBoth(order, come);
          order := order + come;
          ghost var more := iset p: Path | p.Under? && p.dir == dir && p !in r;
          LeavesOnly(reader, blocked, now, files);
          KeepsMore(reader, blocked, before, now, files);
          DoneStays(reader, blocked, now, files, scope);
          DoneBoth(reader, files, scope, more);
          refused := refused + r;
          scope := scope + more;
        }
      }
      assert entries[..|entries|] == entries;
      LeavesOnly(reader, blocked, before, files);
      DoneEverywhere(reader, files, scope, refused, set p <- old(folders) | p.Root? :: p.name);
    }
  }

  /** The paths of names in a directory. */
  function Listed(dir: string, names: seq<string>): (r: seq<Path>)
    ensures |r| == |names| && forall i | 0 <= i < |r| :: r[i] == Under(dir, names[i])
    ensures NoRepeat(names) ==> NoRepeat(r)
    ensures forall n <- names :: Under(dir, n) in r
  {
    var r := seq(|names|, i requires 0 <= i < |names| => Under(dir, names[i]));
    assert forall i | 0 <= i < |names| :: r[i] in r;
    r
  }

  lemma NoRepeatBoth<T>(a: seq<T>, b: seq<T>)
    requires NoRepeat(a) && NoRepeat(b) && forall x <- a :: x !in b
    ensures NoRepeat(a + b)
  {
    forall i, j | 0 <= i < j < |a + b| ensures (a + b)[i] != (a + b)[j] {
      if i < |a| <= j {
        assert a[i] in a && b[j - |a|] in b;
      }
    }
  }

  lemma Fresh<T>(names: seq<T>, i: nat)
    requires NoRepeat(names) && i < |names|
    ensures names[i] !in names[..i]
  {
  }

  lemma CandidateEnds(file: string, k: nat)
    ensures EndsWith(Candidate(file, k), SUFFIX)
  {
  }

  lemma FreeIs(file: string, n: nat, taken: set<string>)
    requires n >= 1 && Candidate(file, n) !in taken && forall k | 1 <= k < n :: Candidate(file, k) in taken
    ensures FirstFree(file, 1, taken) == n
  {
    hide Candidate;
    var m := FirstFree(file, 1, taken);
    assert Candidate(file, m) !in taken;
  }

  lemma NotBlocked(dir: string)
    requires LegacyDirName(dir)
    ensures !EndsWith(dir, SUFFIX)
  {
    if EndsWith(dir, SUFFIX) {
      EndsAlike(dir, "--", SUFFIX);
    }
  }

  lemma EndsAlike(s: string, a: string, b: string)
    requires EndsWith(s, a) && EndsWith(s, b) && a != "" && b != ""
    ensures a[|a| - 1] == b[|b| - 1]
  {
    assert s[|s| - |a|..][|a| - 1] == s[|s| - 1] == s[|s| - |b|..][|b| - 1];
  }

  lemma NothingToDo(r: Reader, files: map<Path, Bytes>)
    ensures Done(r, files, iset{})
  {
  }

  lemma DoneBoth(r: Reader, files: map<Path, Bytes>, a: iset<Path>, b: iset<Path>)
    requires Done(r, files, a) && Done(r, files, b)
    ensures Done(r, files, a + b)
  {
    hide HasTwin, Legacy;
  }

  lemma DoneWithin(r: Reader, files: map<Path, Bytes>, a: iset<Path>, b: iset<Path>)
    requires Done(r, files, a) && b <= a
    ensures Done(r, files, b)
  {
    hide HasTwin, Legacy;
  }

  lemma LeavesOnly(r: Reader, blocked: set<string>, a: map<Path, Bytes>, b: map<Path, Bytes>)
    requires Keeps(r, blocked, a, b)
    ensures forall p <- b | p.Under? :: p in a
  {
    hide Contents, Stays, Lands, Origins, Apart;
  }

  lemma DoneEverywhere(r: Reader, files: map<Path, Bytes>, scope: iset<Path>, refused: set<Path>, dirs: set<string>)
    requires Done(r, files, scope)
    requires forall p <- files | p.Under? :: p.dir in dirs
    requires forall p: Path | p.Under? && LegacyDirName(p.dir) && p.dir in dirs :: p in scope || p in refused
    ensures Settled(r, files, refused)
  {
    hide HasTwin, LegacyDirName, EndsWith;
  }
}
