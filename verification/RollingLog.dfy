/** The rolling log appender (cmd/eric-odp-factory/rla.go). */
module RollingLog {
  import opened Wrappers

  type Bytes = seq<bv8>

  datatype Output = NoFile | Open | Closed

  /** What the operating system answers to the calls one Write makes: whether closing, renaming and
      creating succeed, and how many bytes get written. */
  datatype Answers = Answers(closes: bool, renames: bool, creates: bool, written: nat)

  datatype Entry = Entry(bytes: Bytes, os: Answers)

  /** The bytes of an entry that reach the file. */
  function Piece(e: Entry): Bytes {
    if e.os.written <= |e.bytes| then e.bytes[..e.os.written] else e.bytes
  }

  /** The appender and the two files it knows: the log and its backup. */
  datatype Log = Log(maxWrites: int, writes: int, output: Output, file: Option<Bytes>, bak: Option<Bytes>)

  // rla.go:65-74
  function OpenFile(l: Log, creates: bool): Log {
    if creates then l.(output := Open, file := Some([]), writes := 0) else l.(output := NoFile)
  }

  // rla.go:53-63
  function Rotate(l: Log, os: Answers): (r: (Log, bool)) {
    if l.output != Open || !os.closes || l.file.None?
    then (l.(output := if l.output == Open then Closed else l.output), false)
    else if !os.renames then (l.(output := Closed), false)
    else (OpenFile(l.(output := Closed, file := None, bak := l.file), os.creates), os.creates)
  }

  // rla.go:38-51: the new state and whether an entry was appended
  function Write(l: Log, e: Entry): (Log, bool) {
    var (rotated, ok) := if l.writes >= l.maxWrites then Rotate(l, e.os) else (l, true);
    if !ok || rotated.output != Open || rotated.file.None? then (rotated, false)
    else (rotated.(writes := rotated.writes + 1, file := Some(rotated.file.value + Piece(e))), true)
  }

  function WriteAll(l: Log, es: seq<Entry>): Log {
    if es == [] then l else Write(WriteAll(l, es[..|es| - 1]), es[|es| - 1]).0
  }

  // ---- A failed rotation is for ever ----

  /** The appender must rotate and cannot. */
  predicate Broken(l: Log) {
    l.output != Open && l.writes >= l.maxWrites
  }

  /** A new appender has its file open; so has every appender until a rotation fails. */
  predicate Good(l: Log) {
    l.output == Open && l.file.Some? && l.writes >= 0
  }

  /** A Write appends, or its rotation failed; then no later Write appends or touches a file. */
  lemma {:induction false} FailureIsForEver(l: Log, es: seq<Entry>, e: Entry)
    requires Good(l)
    ensures var now := WriteAll(l, es);
            && (Good(now) || Broken(now))
            && (Write(now, e).1 <==> Good(Write(now, e).0))
            && (!Write(now, e).1 ==> Broken(Write(now, e).0))
            && (Broken(now) ==> !Write(now, e).1 && Write(now, e).0 == now)
  {
    if es == [] {
    } else {
      FailureIsForEver(l, es[..|es| - 1], es[|es| - 1]);
    }
  }

  // ---- What the files hold ----

  /** What the entries from `a` to `b` append, one after the other. */
  function Appended(es: seq<Entry>, a: nat, b: nat): Bytes
    requires a <= b <= |es|
  {
    if a == b then [] else Appended(es, a, b - 1) + Piece(es[b - 1])
  }

  function Capacity(maxWrites: int): int {
    if maxWrites >= 1 then maxWrites else 1
  }

  /** How many of `n` entries the log holds: a full log starts over. */
  function InFile(n: nat, maxWrites: int): (k: nat)
    ensures k <= n && k <= Capacity(maxWrites) && (n > 0 ==> 1 <= k)
    ensures n - k == 0 || n - k >= Capacity(maxWrites)
  {
    if n == 0 then 0
    else
      var before := InFile(n - 1, maxWrites);
      if before == Capacity(maxWrites) then 1 else before + 1
  }

  lemma Multiple(m: int, q: int)
    requires m >= 1
    ensures q >= 1 ==> m * q >= m
    ensures q <= -1 ==> m * q <= -m
  {
    if q >= 1 {
      assert m * q == m * (q - 1) + m;
    } else if q <= -1 {
      assert m * q == m * (q + 1) - m;
    }
  }

  lemma RemainderIsUnique(m: int, q: int, r: int, q': int, r': int)
    requires m >= 1 && m * q + r == m * q' + r' && 0 <= r < m && 0 <= r' < m
    ensures r == r'
  {
    assert m * (q - q') == m * q - m * q';
    Multiple(m, q - q');
  }

  /** How often a full log started over. */
  function Rotations(n: nat, maxWrites: int): nat {
    if n <= 1 then 0 else Rotations(n - 1, maxWrites) + if InFile(n - 1, maxWrites) == Capacity(maxWrites) then 1 else 0
  }

  lemma {:induction false} RotationsAreFull(n: nat, maxWrites: int)
    requires n >= 1
    ensures n == Capacity(maxWrites) * Rotations(n, maxWrites) + InFile(n, maxWrites)
  {
    if n > 1 {
      RotationsAreFull(n - 1, maxWrites);
      Distribute(Capacity(maxWrites), Rotations(n - 1, maxWrites));
    }
  }

  lemma Distribute(m: int, q: int)
    ensures m * (q + 1) == m * q + m
  {
  }

  /** In closed form: of n = m * q + k entries with 1 <= k <= m, the log holds k. */
  lemma InFileIsRemainder(n: nat, maxWrites: int, q: nat, k: nat)
    requires n == Capacity(maxWrites) * q + k && 1 <= k <= Capacity(maxWrites)
    ensures InFile(n, maxWrites) == k
  {
    var m := Capacity(maxWrites);
    assert m * q >= 0;
    RotationsAreFull(n, maxWrites);
    RemainderIsUnique(m, Rotations(n, maxWrites), InFile(n, maxWrites) - 1, q, k - 1);
  }

  lemma NextInFile(n: nat, maxWrites: int)
    ensures InFile(n, maxWrites) >= maxWrites ==> InFile(n + 1, maxWrites) == 1 &&
                                                  (n > 0 ==> InFile(n, maxWrites) == Capacity(maxWrites))
    ensures InFile(n, maxWrites) < maxWrites ==> InFile(n + 1, maxWrites) == InFile(n, maxWrites) + 1
  {
  }

  /** What the backup holds after `n` entries with the last `k` in the log: the `m` entries before
      those, once there are so many. A log without room for a single entry is rotated before the first. */
  function Backup(es: seq<Entry>, k: nat, maxWrites: int, first: Option<Bytes>): Option<Bytes>
    requires k <= |es|
  {
    var start, m := |es| - k, Capacity(maxWrites);
    if start >= m then Some(Appended(es, start - m, start))
    else if maxWrites < 1 && |es| == 1 then Some([])
    else first
  }

  /** The log holds the last `k` entries, and the backup what it should. */
  ghost predicate Holds(now: Log, es: seq<Entry>, k: nat, maxWrites: int, first: Option<Bytes>)
    requires k <= |es|
  {
    && Good(now) && now.maxWrites == maxWrites && now.writes == k
    && now.file == Some(Appended(es, |es| - k, |es|))
    && now.bak == Backup(es, k, maxWrites, first)
  }

  lemma {:induction false} AppendedBefore(es: seq<Entry>, e: Entry, a: nat, b: nat)
    requires a <= b <= |es|
    ensures Appended(es + [e], a, b) == Appended(es, a, b)
    decreases b
  {
    if a < b {
      AppendedBefore(es, e, a, b - 1);
    }
  }

  lemma RotatingWrite(now: Log, e: Entry)
    requires Good(now) && Good(Write(now, e).0) && now.writes >= now.maxWrites
    ensures Write(now, e).0 == Log(now.maxWrites, 1, Open, Some(Piece(e)), now.file)
  {
    assert [] + Piece(e) == Piece(e);
  }

  /** A full log is rotated and becomes the backup, and the entry starts the next one. */
  lemma RotatingHolds(now: Log, es: seq<Entry>, k: nat, maxWrites: int, first: Option<Bytes>, e: Entry)
    requires if es == [] then k == 0 && maxWrites < 1 else k == Capacity(maxWrites) <= |es|
    requires Holds(now, es, k, maxWrites, first) && Good(Write(now, e).0)
    ensures Holds(Write(now, e).0, es + [e], 1, maxWrites, first)
  {
    RotatingWrite(now, e);
    AppendedBefore(es, e, |es| - k, |es|);
    LastAppended(es + [e], |es|);
  }

  lemma LastAppended(es: seq<Entry>, n: nat)
    requires n < |es|
    ensures Appended(es, n, n + 1) == Piece(es[n])
  {
    assert [] + Piece(es[n]) == Piece(es[n]);
  }

  /** A log with room gets the entry. */
  lemma AppendingHolds(now: Log, es: seq<Entry>, k: nat, maxWrites: int, first: Option<Bytes>, e: Entry)
    requires k <= |es| && k < maxWrites
    requires Holds(now, es, k, maxWrites, first)
    ensures Holds(Write(now, e).0, es + [e], k + 1, maxWrites, first)
  {
    var start := |es| - k;
    AppendedBefore(es, e, start, |es|);
    if start >= Capacity(maxWrites) {
      AppendedBefore(es, e, start - Capacity(maxWrites), start);
    }
  }

  /** After any number of entries without a failed rotation, the files hold what they should. */
  lemma {:induction false} FilesHold(l: Log, es: seq<Entry>)
    requires Good(l) && l.writes == 0 && l.file == Some([]) && Good(WriteAll(l, es))
    ensures Holds(WriteAll(l, es), es, InFile(|es|, l.maxWrites), l.maxWrites, l.bak)
  {
    if es != [] {
      var init, e, k := es[..|es| - 1], es[|es| - 1], InFile(|es| - 1, l.maxWrites);
      FailureIsForEver(l, init, e);
      FilesHold(l, init);
      NextInFile(|init|, l.maxWrites);
      assert es == init + [e];
      if k >= l.maxWrites {
        RotatingHolds(WriteAll(l, init), init, k, l.maxWrites, l.bak, e);
      } else {
        AppendingHolds(WriteAll(l, init), init, k, l.maxWrites, l.bak, e);
      }
    }
  }

  /** After n = m * q + k entries with 1 <= k <= m, none of them with a failed rotation, on a new
      appender that takes m: the log holds the last k, and the backup the m entries before those if
      n > m; until then the backup is what it was. */
  lemma FilesAfterWrites(l: Log, es: seq<Entry>, n: nat, m: nat, q: nat, k: nat)
    requires Good(l) && l.writes == 0 && l.file == Some([]) && Good(WriteAll(l, es))
    requires n == |es| && m == l.maxWrites >= 1 && n == m * q + k && 1 <= k <= m
    ensures k <= n && (n > m ==> m <= n - k)
    ensures WriteAll(l, es).file == Some(Appended(es, n - k, n))
    ensures WriteAll(l, es).bak == if n > m then Some(Appended(es, n - k - m, n - k)) else l.bak
  {
    InFileIsRemainder(n, m, q, k);
    FilesHold(l, es);
  }

  /** The log as it was when a rotation first failed is not lost, whatever is written later: it is still
      in its file, with the backup as it was, if closing or renaming failed, and in the backup, with no
      file, if creating the new one did. */
  lemma {:induction false} FailedRotationKeepsLog(l: Log, e: Entry, later: seq<Entry>)
    requires Good(l) && !Write(l, e).1
    ensures l.writes >= l.maxWrites
    ensures var end := WriteAll(Write(l, e).0, later);
            if !e.os.closes || !e.os.renames then end.file == l.file && end.bak == l.bak
            else !e.os.creates && end.file.None? && end.bak == l.file
  {
    if later != [] {
      FailedRotationKeepsLog(l, e, later[..|later| - 1]);
      StaysBroken(Write(l, e).0, later);
    }
  }

  lemma {:induction false} StaysBroken(l: Log, es: seq<Entry>)
    requires Broken(l)
    ensures WriteAll(l, es) == l
  {
    if es != [] {
      StaysBroken(l, es[..|es| - 1]);
    }
  }

  // ---- The object ----

  class RollingLogAppender {
    const maxWrites: int
    var writes: int
    var output: Output
    // The file system's two files: `fileName` and `fileName` + ".bak".
    var file: Option<Bytes>
    var bak: Option<Bytes>

    ghost function State(): Log
      reads this
    {
      Log(maxWrites, writes, output, file, bak)
    }

    // rla.go:19-32: None if the file cannot be created
    static method New(maxWrites: int, creates: bool, bak: Option<Bytes>) returns (rla: Option<RollingLogAppender>)
      ensures rla.Some? <==> creates
      ensures rla.Some? ==> fresh(rla.value) && rla.value.State() == Log(maxWrites, 0, Open, Some([]), bak)
    {
      var made := new RollingLogAppender(maxWrites, bak);
      var ok := made.OpenTheFile(creates);
      rla := if ok then Some(made) else None;
    }

    constructor (maxWrites: int, bak: Option<Bytes>)
      ensures State() == Log(maxWrites, 0, NoFile, None, bak)
    {
      this.maxWrites, this.writes, this.output, this.file, this.bak := maxWrites, 0, NoFile, None, bak;
    }

    method OpenTheFile(creates: bool) returns (ok: bool)
      modifies this
      ensures State() == OpenFile(old(State()), creates) && ok == creates
    {
      if !creates {
        output := NoFile;
        return false;
      }
      output, file := Open, Some([]);
      writes := 0;
      ok := true;
    }

    method RotateFiles(os: Answers) returns (ok: bool)
      requires output == Open ==> file.Some?
      modifies this
      ensures (State(), ok) == Rotate(old(State()), os)
    {
      if output != Open {
        return false;
      }
      output := Closed;
      if !os.closes {
        return false;
      }
      if !os.renames {
        return false;
      }
      file, bak := None, file;
      ok := OpenTheFile(os.creates);
    }

    /** `n` bytes were written; `err` if any is missing. */
    method WriteEntry(p: Bytes, os: Answers) returns (n: nat, err: bool)
      requires Good(State()) || Broken(State())
      modifies this
      ensures State() == Write(old(State()), Entry(p, os)).0
      ensures Good(State()) || Broken(State())
      ensures old(Broken(State())) ==> err && n == 0 && Broken(State()) && file == old(file) && bak == old(bak)
      ensures Good(State()) ==> n == |Piece(Entry(p, os))| && (err <==> n < |p|)
      ensures Broken(State()) ==> err && n == 0
    {
      if writes >= maxWrites {
        var ok := RotateFiles(os);
        if !ok {
          return 0, true;
        }
      }
      writes := writes + 1;
      n := if os.written <= |p| then os.written else |p|;
      file := Some(file.value + p[..n]);
      err := n < |p|;
      assert p[..n] == Piece(Entry(p, os));
    }
  }
}
