/** Handing named listeners to the successor: `pass_listener_fds_on_spawn` and
    `spawn_successor` on the supervisor's side, `read_inherited_listeners`, `detect_role`
    and `take_validated` on the successor's, across the descriptor shuffle. */
module Listeners {
  import opened Protocol
  import opened FdShuffle

  // ---------------------------------------------------------------- decimal numbers

  const USIZE_MAX: nat := 0xFFFF_FFFF_FFFF_FFFF
  const U32_MAX: nat := 0xFFFF_FFFF
  const I32_MAX: nat := 0x7FFF_FFFF

  function Digit(d: nat): char
    requires d < 10
  {
    "0123456789"[d]
  }

  function DigitValue(c: char): Option<nat> {
    if '0' <= c <= '9' then Some((c as int - '0' as int) as nat) else None
  }

  function ToDecimal(n: nat): (s: string)
    ensures s != "" && forall k :: 0 <= k < |s| ==> '0' <= s[k] <= '9'
  {
    if n < 10 then [Digit(n)] else ToDecimal(n / 10) + [Digit(n % 10)]
  }

  function ParseDigits(s: string): Option<nat> {
    if s == "" then Some(0)
    else
      var front, d := ParseDigits(s[..|s| - 1]), DigitValue(s[|s| - 1]);
      if front.None? || d.None? then None else Some(10 * front.value + d.value)
  }

  /** `str::parse` for an unsigned integer up to `max`: digits with an optional plus. */
  function ParseUnsigned(s: string, max: nat): Option<nat> {
    var body := if |s| > 1 && s[0] == '+' then s[1..] else s;
    if body == "" || ParseDigits(body).None? || ParseDigits(body).value > max then None else ParseDigits(body)
  }

  /** The Unicode property White_Space, as `str::trim` uses it. */
  predicate IsSpace(c: char) {
    || '\U{0009}' <= c <= '\U{000D}' || c == ' ' || c == '\U{0085}' || c == '\U{00A0}' || c == '\U{1680}'
    || '\U{2000}' <= c <= '\U{200A}' || c == '\U{2028}' || c == '\U{2029}' || c == '\U{202F}' || c == '\U{205F}' ||
       c == '\U{3000}'
  }

  function Trim(s: string): string {
    if s == "" then s
    else if IsSpace(s[0]) then Trim(s[1..])
    else if IsSpace(s[|s| - 1]) then Trim(s[..|s| - 1])
    else s
  }

  // ---------------------------------------------------------------- what a text spells

  predicate White(s: string) {
    forall k :: 0 <= k < |s| ==> IsSpace(s[k])
  }

  function Zeros(z: nat): (s: string)
    ensures |s| == z && forall k :: 0 <= k < z ==> s[k] == '0'
  {
    seq(z, _ => '0')
  }

  /** The digits of `n` after any number of zeros. */
  ghost predicate Digits(s: string, n: nat) {
    exists z :: s == Zeros(z) + ToDecimal(n)
  }

  /** `s` is an optional plus and the digits of `n`. */
  ghost predicate Spells(s: string, n: nat) {
    Digits(s, n) || (s != "" && s[0] == '+' && Digits(s[1..], n))
  }

  /** `s` is such a number with white space around it. */
  ghost predicate Reads(s: string, n: nat) {
    exists a, core, b :: s == Padded(a, core, b) && White(a) && White(b) && Spells(core, n)
  }

  function Padded(a: string, core: string, b: string): string {
    a + core + b
  }

  lemma ParseSnoc(s: string, d: nat)
    requires d < 10
    ensures ParseDigits(s + [Digit(d)]) ==
            if ParseDigits(s).None? then None else Some(10 * ParseDigits(s).value + d)
  {
    assert (s + [Digit(d)])[..|s|] == s;
  }

  lemma {:induction false} ParseZeros(z: nat)
    ensures ParseDigits(Zeros(z)) == Some(0)
  {
    if z > 0 {
      ParseZeros(z - 1);
      ParseSnoc(Zeros(z - 1), 0);
      assert Zeros(z) == Zeros(z - 1) + [Digit(0)];
    }
  }

  lemma {:induction false} ParseAfterZeros(z: nat, n: nat)
    ensures ParseDigits(Zeros(z) + ToDecimal(n)) == Some(n)
  {
    hide ParseDigits, Zeros, Digit;
    if n < 10 {
      ParseZeros(z);
      ParseSnoc(Zeros(z), n);
    } else {
      ParseAfterZeros(z, n / 10);
      ParseSnoc(Zeros(z) + ToDecimal(n / 10), n % 10);
      assert Zeros(z) + ToDecimal(n) == Zeros(z) + ToDecimal(n / 10) + [Digit(n % 10)];
    }
  }

  lemma DecimalSnoc(f: nat, d: nat)
    requires d < 10
    ensures f > 0 ==> ToDecimal(10 * f + d) == ToDecimal(f) + [Digit(d)]
    ensures ToDecimal(d) == [Digit(d)]
  {
  }

  lemma DigitsSnoc(s: string, f: nat, d: nat)
    requires Digits(s, f) && d < 10
    ensures Digits(s + [Digit(d)], 10 * f + d)
  {
    hide ToDecimal, Digit;
    var z: nat :| s == Zeros(z) + ToDecimal(f);
    DecimalSnoc(f, d);
    if f == 0 {
      assert ToDecimal(0) == "0" by { Zero(); }
      assert s + [Digit(d)] == Zeros(z + 1) + ToDecimal(d);
    } else {
      assert s + [Digit(d)] == Zeros(z) + ToDecimal(10 * f + d);
    }
  }

  lemma Zero()
    ensures ToDecimal(0) == "0"
  {
  }

  lemma {:induction false} ParsedIsDigits(s: string)
    requires s != "" && ParseDigits(s).Some?
    ensures Digits(s, ParseDigits(s).value)
  {
    hide ToDecimal;
    var front, d := s[..|s| - 1], DigitValue(s[|s| - 1]).value;
    assert s == front + [Digit(d)];
    DecimalSnoc(0, d);
    if front == "" {
      assert s == Zeros(0) + ToDecimal(d);
    } else {
      ParsedIsDigits(front);
      DigitsSnoc(front, ParseDigits(front).value, d);
    }
  }

  /** `str::parse` accepts exactly the spellings of the numbers up to `max`. */
  lemma ParsesIff(s: string, max: nat, n: nat)
    ensures ParseUnsigned(s, max) == Some(n) <==> n <= max && Spells(s, n)
  {
    if ParseUnsigned(s, max) == Some(n) {
      ParsedIsDigits(if |s| > 1 && s[0] == '+' then s[1..] else s);
    }
    if n <= max && Spells(s, n) {
      var body := if Digits(s, n) then s else s[1..];
      var z: nat :| body == Zeros(z) + ToDecimal(n);
      ParseAfterZeros(z, n);
      assert Digits(s, n) ==> s[0] != '+';
    }
  }

  lemma ParseToDecimal(n: nat, max: nat)
    requires n <= max
    ensures ParseUnsigned(ToDecimal(n), max) == Some(n)
  {
    hide ParseUnsigned, ToDecimal;
    assert ToDecimal(n) == Zeros(0) + ToDecimal(n);
    ParsesIff(ToDecimal(n), max, n);
  }

  lemma {:induction false} TrimPadded(a: string, core: string, b: string)
    requires White(a) && White(b) && core != "" && !IsSpace(core[0]) && !IsSpace(core[|core| - 1])
    ensures Trim(Padded(a, core, b)) == core
    decreases |a| + |b|
  {
    var s := Padded(a, core, b);
    if a != "" {
      assert s[1..] == Padded(a[1..], core, b);
      TrimPadded(a[1..], core, b);
    } else if b != "" {
      assert s[..|s| - 1] == Padded(a, core, b[..|b| - 1]);
      TrimPadded(a, core, b[..|b| - 1]);
    } else {
      assert s == core;
    }
  }

  lemma WiderPadding(c: char, a: string, core: string, b: string)
    requires IsSpace(c) && White(a) && White(b)
    ensures [c] + Padded(a, core, b) == Padded([c] + a, core, b) && White([c] + a)
    ensures Padded(a, core, b) + [c] == Padded(a, core, b + [c]) && White(b + [c])
  {
    hide IsSpace;
  }

  lemma {:induction false} TrimSplits(s: string) returns (a: string, b: string)
    ensures s == Padded(a, Trim(s), b) && White(a) && White(b)
  {
    hide IsSpace, White;
    if s != "" && IsSpace(s[0]) {
      a, b := TrimSplits(s[1..]);
      assert s == [s[0]] + s[1..];
      WiderPadding(s[0], a, Trim(s), b);
      a := [s[0]] + a;
    } else if s != "" && IsSpace(s[|s| - 1]) {
      a, b := TrimSplits(s[..|s| - 1]);
      assert s == s[..|s| - 1] + [s[|s| - 1]];
      WiderPadding(s[|s| - 1], a, Trim(s), b);
      b := b + [s[|s| - 1]];
    } else {
      a, b := "", "";
      assert White("") by { NoneIsWhite(); }
    }
  }

  lemma NoneIsWhite()
    ensures White("")
  {
  }

  lemma SpellingEnds(core: string, n: nat)
    requires Spells(core, n)
    ensures core != "" && !IsSpace(core[0]) && !IsSpace(core[|core| - 1])
  {
    var body := if Digits(core, n) then core else core[1..];
    var z: nat :| body == Zeros(z) + ToDecimal(n);
    assert body != "" && forall k :: 0 <= k < |body| ==> '0' <= body[k] <= '9';
  }

  /** `trim` and `parse` read exactly the padded spellings. */
  lemma TrimmedIff(s: string, max: nat, n: nat)
    ensures ParseUnsigned(Trim(s), max) == Some(n) <==> n <= max && Reads(s, n)
  {
    hide ParseUnsigned, Trim, Spells;
    ParsesIff(Trim(s), max, n);
    if Spells(Trim(s), n) {
      var a, b := TrimSplits(s);
    }
    if Reads(s, n) {
      var a, core, b :| s == Padded(a, core, b) && White(a) && White(b) && Spells(core, n);
      SpellingEnds(core, n);
      TrimPadded(a, core, b);
    }
  }

  // ---------------------------------------------------------------- names

  predicate ColonFree(s: string) {
    ':' !in s
  }

  function Join(names: seq<string>): string {
    if |names| == 0 then "" else if |names| == 1 then names[0] else names[0] + ":" + Join(names[1..])
  }

  function Split(s: string): (r: seq<string>)
    ensures |r| >= 1
  {
    if s == "" then [""]
    else
      var r := Split(s[1..]);
      if s[0] == ':' then [""] + r else [[s[0]] + r[0]] + r[1..]
  }

  lemma {:induction false} SplitPieces(s: string)
    ensures forall k :: 0 <= k < |Split(s)| ==> ColonFree(Split(s)[k])
  {
    if s != "" { SplitPieces(s[1..]); }
  }

  lemma {:induction false} SplitAtColon(a: string, b: string)
    requires ColonFree(a)
    ensures Split(a + ":" + b) == [a] + Split(b)
  {
    if a == "" {
      assert (a + ":" + b)[1..] == b;
    } else {
      assert (a + ":" + b)[1..] == a[1..] + ":" + b;
      SplitAtColon(a[1..], b);
      assert [a[0]] + a[1..] == a;
    }
  }

  lemma {:induction false} SplitPlain(a: string)
    requires ColonFree(a)
    ensures Split(a) == [a]
  {
    if a != "" {
      SplitPlain(a[1..]);
      assert [a[0]] + a[1..] == a;
    }
  }

  lemma {:induction false} SplitJoin(names: seq<string>)
    requires |names| >= 1 && forall k :: 0 <= k < |names| ==> ColonFree(names[k])
    ensures Split(Join(names)) == names
  {
    if |names| == 1 {
      SplitPlain(names[0]);
    } else {
      SplitAtColon(names[0], Join(names[1..]));
      SplitJoin(names[1..]);
    }
  }

  // ---------------------------------------------------------------- supervisor side

  /** The variables that concern descriptors. `listenPid` is whatever the child inherits: the
      supervisor never sets it. */
  datatype Env = Env(listenFds: Option<string>, fdNames: Option<string>, sockFd: Option<string>,
                     listenPid: Option<string>)

  function Names(ls: seq<(string, int)>): (r: seq<string>)
    ensures |r| == |ls| && forall k :: 0 <= k < |ls| ==> r[k] == ls[k].0
  {
    seq(|ls|, k requires 0 <= k < |ls| => ls[k].0)
  }

  /** `spawn_successor` with `pass_listener_fds_on_spawn`: the environment, and the source
      descriptors in slot order with the control socket last. */
  method PassListenerFds(ls: seq<(string, int)>, control: int, listenPid: Option<string>)
      returns (env: Env, fds: seq<int>)
    ensures env == Env(Some(ToDecimal(|ls|)), Some(Join(Names(ls))), Some(ToDecimal(3 + |ls|)), listenPid)
    ensures |fds| == |ls| + 1 && fds[|ls|] == control && forall k :: 0 <= k < |ls| ==> fds[k] == ls[k].1
  {
    var names: seq<string> := [];
    fds := [];
    for k := 0 to |ls|
      invariant |names| == |fds| == k
      invariant forall j :: 0 <= j < k ==> names[j] == ls[j].0 && fds[j] == ls[j].1
    {
      names, fds := names + [ls[k].0], fds + [ls[k].1];
    }
    fds := fds + [control];
    assert names == Names(ls);
    env := Env(Some(ToDecimal(|ls|)), Some(Join(names)), Some(ToDecimal(FIRST + |ls|)), listenPid);
  }

  // ---------------------------------------------------------------- successor side

  /** `fd_is_socket` on slot `i`: open, and its description is one of the sockets. */
  predicate SlotIsSocket(u: Table, i: nat, socks: set<nat>) {
    FIRST + i in u && u[FIRST + i].desc in socks
  }

  /** The slot's name, or its index when there are too few names. */
  function NameOf(names: seq<string>, i: nat): string {
    if i < |names| then names[i] else ToDecimal(i)
  }

  /** The first `count` slots adopted in order, skipping descriptors that are not sockets;
      a repeated name keeps the later slot. */
  function Adopted(names: seq<string>, count: nat, u: Table, socks: set<nat>): map<string, int> {
    if count == 0 then map[]
    else
      var m := Adopted(names, count - 1, u, socks);
      if SlotIsSocket(u, count - 1, socks) then m[NameOf(names, count - 1) := FIRST + count - 1] else m
  }

  /** `LISTEN_PID`, when present, names this process. */
  predicate PidIsOurs(listenPid: Option<string>, pid: nat) {
    listenPid.Some? ==> ParseUnsigned(Trim(listenPid.value), U32_MAX) == Some(pid)
  }

  /** The count in `LISTEN_FDS`: 0 when absent or not a number. */
  function Count(env: Env): nat {
    var n := if env.listenFds.None? then None else ParseUnsigned(env.listenFds.value, USIZE_MAX);
    if n.None? then 0 else n.value
  }

  /** `LISTEN_FDS` spells `n`. */
  ghost predicate Counts(env: Env, n: nat) {
    env.listenFds.Some? && n <= 0xFFFF_FFFF_FFFF_FFFF && Spells(env.listenFds.value, n)
  }

  lemma CountIff(env: Env)
    ensures forall n :: Counts(env, n) ==> n == Count(env)
    ensures Count(env) > 0 ==> Counts(env, Count(env))
  {
    hide ParseUnsigned, Spells;
    if env.listenFds.Some? {
      forall n: nat ensures ParseUnsigned(env.listenFds.value, USIZE_MAX) == Some(n) <==> Counts(env, n) {
        ParsesIff(env.listenFds.value, USIZE_MAX, n);
      }
    }
  }

  function SlotNames(env: Env): seq<string> {
    if env.fdNames.None? then [] else Split(env.fdNames.value)
  }

  /** `m` holds the sockets among the first `count` slots after descriptor 2, each under its
      name, or its index when there are fewer names; of slots with one name, the last. */
  ghost predicate Holding(m: map<string, int>, names: seq<string>, count: nat, u: Table, socks: set<nat>) {
    && (forall i :: 0 <= i < count && IsSocket(u, 3 + i, socks) ==>
          NameOf(names, i) in m && m[NameOf(names, i)] >= 3 + i)
    && forall s :: s in m ==>
         && 3 <= m[s] < 3 + count && IsSocket(u, m[s], socks)
         && s == if m[s] - 3 < |names| then names[m[s] - 3] else ToDecimal(m[s] - 3)
  }

  predicate IsSocket(u: Table, fd: int, socks: set<nat>) {
    fd in u && u[fd].desc in socks
  }

  lemma {:induction false} AdoptedHolds(names: seq<string>, count: nat, u: Table, socks: set<nat>)
    ensures Holding(Adopted(names, count, u, socks), names, count, u, socks)
  {
    hide ToDecimal;
    if count > 0 { AdoptedHolds(names, count - 1, u, socks); }
  }

  /** `LISTEN_PID` is absent, or reads as this process's id. */
  ghost predicate Ours(listenPid: Option<string>, pid: nat) {
    listenPid.Some? ==> pid <= 0xFFFF_FFFF && Reads(listenPid.value, pid)
  }

  lemma PidIsOursIff(listenPid: Option<string>, pid: nat)
    ensures PidIsOurs(listenPid, pid) <==> Ours(listenPid, pid)
  {
    hide ParseUnsigned, Trim, Reads;
    if listenPid.Some? { TrimmedIff(listenPid.value, U32_MAX, pid); }
  }

  /** A padded decimal number names us exactly when it is our id. */
  lemma PaddedPid(a: string, q: nat, b: string, pid: nat)
    requires White(a) && White(b) && pid <= 0xFFFF_FFFF
    ensures Ours(Some(Padded(a, ToDecimal(q), b)), pid) <==> q == pid
  {
    hide ParseUnsigned, Trim, White, ToDecimal;
    var t := Padded(a, ToDecimal(q), b);
    assert ToDecimal(q) == Zeros(0) + ToDecimal(q);
    TrimmedIff(t, if q < pid then pid else q, q);
    TrimmedIff(t, if q < pid then pid else q, pid);
  }

  /** `read_inherited_listeners`, for any environment. */
  method ReadInheritedListeners(env: Env, pid: nat, u: Table, socks: set<nat>) returns (m: map<string, int>)
    ensures m == if PidIsOurs(env.listenPid, pid) then Adopted(SlotNames(env), Count(env), u, socks) else map[]
    ensures Ours(env.listenPid, pid) ==> forall n :: Counts(env, n) ==> Holding(m, SlotNames(env), n, u, socks)
    ensures !Ours(env.listenPid, pid) || (forall n :: !Counts(env, n)) ==> m == map[]
  {
    var parsed := if env.listenFds.None? then None else ParseUnsigned(env.listenFds.value, USIZE_MAX);
    var count := if parsed.Some? then parsed.value else 0;
    m := map[];
    PidIsOursIff(env.listenPid, pid);
    AdoptedHolds(SlotNames(env), count, u, socks);
    CountIff(env);
    hide Ours, Holding, ParseUnsigned, Trim, Counts;
    if count == 0 { return; }
    if !PidIsOurs(env.listenPid, pid) { return; }
    var names := if env.fdNames.None? then [] else Split(env.fdNames.value);
    for i := 0 to count
      invariant m == Adopted(names, i, u, socks)
    {
      if SlotIsSocket(u, i, socks) { m := m[NameOf(names, i) := FIRST + i]; }
    }
  }

  lemma {:induction false} AdoptedKeys(names: seq<string>, count: nat, u: Table, socks: set<nat>)
    requires forall k :: 0 <= k < |names| ==> ColonFree(names[k])
    ensures forall s :: s in Adopted(names, count, u, socks) ==> ColonFree(s)
  {
    if count > 0 { AdoptedKeys(names, count - 1, u, socks); }
  }

  lemma {:induction false} AdoptedSockets(names: seq<string>, count: nat, u: Table, socks: set<nat>, s: string)
    requires s in Adopted(names, count, u, socks)
    ensures IsSocket(u, Adopted(names, count, u, socks)[s], socks)
  {
    if count > 0 && s in Adopted(names, count - 1, u, socks) { AdoptedSockets(names, count - 1, u, socks, s); }
  }

  lemma {:induction false} LaterSlotWins(names: seq<string>, count: nat, u: Table, socks: set<nat>, i: nat)
      returns (k: nat)
    requires i < count <= |names| && forall j :: 0 <= j < count ==> SlotIsSocket(u, j, socks)
    ensures i <= k < count && names[k] == names[i]
    ensures names[i] in Adopted(names, count, u, socks) && Adopted(names, count, u, socks)[names[i]] == FIRST + k
  {
    if names[count - 1] == names[i] {
      k := count - 1;
      assert SlotIsSocket(u, count - 1, socks);
    } else {
      k := LaterSlotWins(names, count - 1, u, socks, i);
    }
  }

  // ---------------------------------------------------------------- end to end

  /** The successor finds, under every registered name, the description registered, and
      nothing under any other name. */
  ghost predicate HandedOver(ls: seq<(string, int)>, t: Table, u: Table, m: map<string, int>)
    requires forall k :: 0 <= k < |ls| ==> ls[k].1 in t
  {
    && (forall i :: 0 <= i < |ls| ==> ls[i].0 in m && m[ls[i].0] in u && u[m[ls[i].0]].desc == t[ls[i].1].desc)
    && forall s :: s in m ==> exists i :: 0 <= i < |ls| && ls[i].0 == s
  }

  /** Names a supervisor may safely register. */
  predicate GoodNames(ls: seq<(string, int)>, t: Table)
    requires forall k :: 0 <= k < |ls| ==> ls[k].1 in t
  {
    && (forall i :: 0 <= i < |ls| ==> ColonFree(ls[i].0))
    && (forall i, j :: 0 <= i < j < |ls| && ls[i].0 == ls[j].0 ==> t[ls[i].1].desc == t[ls[j].1].desc)
  }

  /** Every registered descriptor is a socket. */
  predicate AllSockets(ls: seq<(string, int)>, t: Table, socks: set<nat>)
    requires forall k :: 0 <= k < |ls| ==> ls[k].1 in t
  {
    forall k :: 0 <= k < |ls| ==> t[ls[k].1].desc in socks
  }

  /** What the successor reads, given what the supervisor wrote and installed. */
  function SuccessorMap(ls: seq<(string, int)>, listenPid: Option<string>, pid: nat, u: Table,
                        socks: set<nat>): map<string, int> {
    if |ls| > USIZE_MAX || !PidIsOurs(listenPid, pid) then map[] else Adopted(Split(Join(Names(ls))), |ls|, u, socks)
  }

  /** The listener slots after the shuffle. */
  ghost predicate SlotsFilled(ls: seq<(string, int)>, t: Table, u: Table) {
    forall i :: 0 <= i < |ls| ==> ls[i].1 in t && Holds(u, FIRST + i, t[ls[i].1].desc)
  }

  lemma OnlyNames(ls: seq<(string, int)>, u: Table, socks: set<nat>)
    ensures forall s :: s in Adopted(Names(ls), |ls|, u, socks) ==> exists i :: 0 <= i < |ls| && ls[i].0 == s
  {
    hide Adopted, ToDecimal, NameOf;
    var m := Adopted(Names(ls), |ls|, u, socks);
    AdoptedHolds(Names(ls), |ls|, u, socks);
    forall s | s in m ensures exists i :: 0 <= i < |ls| && ls[i].0 == s { assert Names(ls)[m[s] - 3] == s; }
  }

  lemma GoodNamesSuffice(ls: seq<(string, int)>, t: Table, u: Table, socks: set<nat>)
    requires |ls| >= 1 && SlotsFilled(ls, t, u) && GoodNames(ls, t) && AllSockets(ls, t, socks)
    ensures HandedOver(ls, t, u, Adopted(Split(Join(Names(ls))), |ls|, u, socks))
  {
    hide Split, Join;
    SplitJoin(Names(ls));
    OnlyNames(ls, u, socks);
    hide Adopted;
    var m := Adopted(Names(ls), |ls|, u, socks);
    forall i | 0 <= i < |ls| ensures SlotIsSocket(u, i, socks) { assert Holds(u, FIRST + i, t[ls[i].1].desc); }
    forall i | 0 <= i < |ls| ensures ls[i].0 in m && m[ls[i].0] in u && u[m[ls[i].0]].desc == t[ls[i].1].desc {
      var k := LaterSlotWins(Names(ls), |ls|, u, socks, i);
      assert Holds(u, FIRST + k, t[ls[k].1].desc);
    }
  }

  lemma GoodNamesNeeded(ls: seq<(string, int)>, t: Table, u: Table, socks: set<nat>)
    requires SlotsFilled(ls, t, u) && HandedOver(ls, t, u, Adopted(Split(Join(Names(ls))), |ls|, u, socks))
    ensures GoodNames(ls, t) && AllSockets(ls, t, socks)
  {
    hide Split, Join, Adopted;
    SplitPieces(Join(Names(ls)));
    AdoptedKeys(Split(Join(Names(ls))), |ls|, u, socks);
    forall k | 0 <= k < |ls| ensures t[ls[k].1].desc in socks {
      AdoptedSockets(Split(Join(Names(ls))), |ls|, u, socks, ls[k].0);
    }
  }

  /** The descriptors in slot order, the control socket last. */
  function Sources(ls: seq<(string, int)>, control: int): (fds: seq<int>)
    ensures |fds| == |ls| + 1 && fds[|ls|] == control && forall k :: 0 <= k < |ls| ==> fds[k] == ls[k].1
  {
    seq(|ls|, k requires 0 <= k < |ls| => ls[k].1) + [control]
  }

  /** Listener hand-over end to end, for every list of open descriptors: it works if and only
      if they are sockets, the names are free of colons, no name is used for two different
      sockets, and `LISTEN_PID` is not inherited or reads as the successor's id. With a
      foreign or unreadable one, or an empty list, nothing is handed over. */
  lemma HandOverIff(ls: seq<(string, int)>, control: int, listenPid: Option<string>, pid: nat,
                    t: Table, u: Table, socks: set<nat>)
    requires |ls| <= USIZE_MAX && AllOpen(t, Sources(ls, control)) && Installed(t, Sources(ls, control), u)
    ensures forall k :: 0 <= k < |ls| ==> ls[k].1 in t
    ensures var m := SuccessorMap(ls, listenPid, pid, u, socks);
            if listenPid.None? || (pid <= 0xFFFF_FFFF && Reads(listenPid.value, pid))
            then HandedOver(ls, t, u, m) <==> GoodNames(ls, t) && AllSockets(ls, t, socks)
            else m == map[]
    ensures ls == [] ==> SuccessorMap(ls, listenPid, pid, u, socks) == map[]
  {
    PidIsOursIff(listenPid, pid);
    hide Split, Join, Adopted, GoodNames, AllSockets, PidIsOurs, Reads, HandedOver;
    var m, fds := SuccessorMap(ls, listenPid, pid, u, socks), Sources(ls, control);
    forall k | 0 <= k < |ls| ensures ls[k].1 in t { assert fds[k] in t; }
    forall i | 0 <= i < |ls| ensures Holds(u, FIRST + i, t[ls[i].1].desc) {
      assert Holds(u, FIRST + i, t[fds[i]].desc);
    }
    if ls == [] {
      NoListeners(t, u, listenPid, pid, socks);
    } else if PidIsOurs(listenPid, pid) {
      if GoodNames(ls, t) && AllSockets(ls, t, socks) { GoodNamesSuffice(ls, t, u, socks); }
      if HandedOver(ls, t, u, m) { GoodNamesNeeded(ls, t, u, socks); }
    }
  }

  lemma NoListeners(t: Table, u: Table, listenPid: Option<string>, pid: nat, socks: set<nat>)
    ensures SuccessorMap([], listenPid, pid, u, socks) == map[] && HandedOver([], t, u, map[])
    ensures GoodNames([], t) && AllSockets([], t, socks)
  {
  }

  lemma LastSlot(t: Table, u: Table, fds: seq<int>)
    requires fds != [] && AllOpen(t, fds) && Installed(t, fds, u)
    ensures Last(fds) in t && Holds(u, FIRST + |fds| - 1, t[Last(fds)].desc)
  {
    assert Holds(u, FIRST + (|fds| - 1), t[fds[|fds| - 1]].desc);
  }

  /** The supervisor's variables parse back to what it meant: the listener count, and the
      slot of the control socket, which refers to the description of the socket passed. */
  lemma ControlSocketFound(ls: seq<(string, int)>, control: int, t: Table, u: Table)
    requires 3 + |ls| <= I32_MAX && AllOpen(t, Sources(ls, control)) && Installed(t, Sources(ls, control), u)
    ensures ParseUnsigned(ToDecimal(|ls|), USIZE_MAX) == Some(|ls|)
    ensures ParseUnsigned(ToDecimal(3 + |ls|), I32_MAX) == Some(3 + |ls|)
    ensures control in t && Holds(u, 3 + |ls|, t[control].desc)
  {
    hide ParseUnsigned, ToDecimal, Installed, AllOpen, Sources, Holds;
    LastSlot(t, u, Sources(ls, control));
    ParseToDecimal(|ls|, USIZE_MAX);
    ParseToDecimal(3 + |ls|, I32_MAX);
  }

  /** The child's descriptors: listener `i` at 3 + i, the control socket after them, all to
      survive the exec, and everything else as it was. */
  ghost predicate Arranged(ls: seq<(string, int)>, control: int, t: Table, u: Table) {
    && (forall i :: 0 <= i < |ls| ==> ls[i].1 in t && 3 + i in u && u[3 + i] == Entry(t[ls[i].1].desc, false))
    && control in t && 3 + |ls| in u && u[3 + |ls|] == Entry(t[control].desc, false)
    && forall fd :: !(3 <= fd <= 3 + |ls|) ==> (fd in u <==> fd in t) && (fd in t ==> u[fd] == t[fd])
  }

  lemma InstalledIsArranged(ls: seq<(string, int)>, control: int, t: Table, u: Table)
    requires AllOpen(t, Sources(ls, control)) && Installed(t, Sources(ls, control), u)
    ensures Arranged(ls, control, t, u)
  {
    var fds := Sources(ls, control);
    forall i | 0 <= i < |fds| ensures fds[i] in t && 3 + i in u && u[3 + i] == Entry(t[fds[i]].desc, false) {
      assert Holds(u, FIRST + i, t[fds[i]].desc);
    }
  }

  /** The whole path as code: build the environment, run the shuffle in the child, read the
      environment back. */
  method SpawnAndDetect(ls: seq<(string, int)>, control: int, listenPid: Option<string>, pid: nat,
                        table: FdTable, socks: set<nat>)
      returns (ok: bool, m: map<string, int>)
    requires |ls| <= USIZE_MAX
    modifies table
    ensures ok <==> CanStage(old(table.open), Sources(ls, control), table.limit)
    ensures ok && AllOpen(old(table.open), Sources(ls, control)) ==>
              && Arranged(ls, control, old(table.open), table.open)
              && (forall k :: 0 <= k < |ls| ==> ls[k].1 in old(table.open))
              && if listenPid.None? || (pid <= 0xFFFF_FFFF && Reads(listenPid.value, pid))
                 then HandedOver(ls, old(table.open), table.open, m) <==>
                      GoodNames(ls, old(table.open)) && AllSockets(ls, old(table.open), socks)
                 else m == map[]
    ensures ls == [] ==> m == map[]
  {
    ghost var t := table.open;
    var env, fds := PassListenerFds(ls, control, listenPid);
    assert fds == Sources(ls, control);
    var working := new int[|fds|](k requires 0 <= k < |fds| => fds[k]);
    assert working[..] == fds;
    ok := InstallInheritedFds(working, table);
    m := ReadInheritedListeners(env, pid, table.open, socks);
    ParseToDecimal(|ls|, USIZE_MAX);
    hide CanStage, Installed, HandedOver, GoodNames, AllSockets, Sources, AllOpen, Reads, ParseUnsigned, Split, Join;
    assert m == SuccessorMap(ls, listenPid, pid, table.open, socks);
    if ok && AllOpen(t, fds) {
      HandOverIff(ls, control, listenPid, pid, t, table.open, socks);
      InstalledIsArranged(ls, control, t, table.open);
    }
  }

  // ---------------------------------------------------------------- taking a listener

  datatype Family = Inet | Inet6 | Unix | Other

  /** `InheritedListeners` with what the kernel reports about a descriptor. */
  class Inherited {
    var listeners: map<string, int>
    const listening: set<int>
    const family: map<int, Family>

    constructor (listeners: map<string, int>, listening: set<int>, family: map<int, Family>)
      ensures this.listeners == listeners && this.listening == listening && this.family == family
    {
      this.listeners, this.listening, this.family := listeners, listening, family;
    }

    /** An entry leaves the map exactly when it is handed out, which needs a listening
        socket of an accepted family; a refused call discards nothing. */
    method TakeValidated(name: string, families: set<Family>) returns (r: Option<int>)
      modifies this
      ensures r.Some? <==> name in old(listeners) && old(listeners)[name] in listening
                           && old(listeners)[name] in family && family[old(listeners)[name]] in families
      ensures r.Some? ==> r.value == old(listeners)[name] && listeners == old(listeners) - {name}
      ensures r.None? ==> listeners == old(listeners)
    {
      if name !in listeners { return None; }
      var fd := listeners[name];
      if fd !in listening { return None; }
      if fd !in family || family[fd] !in families { return None; }
      listeners := listeners - {name};
      return Some(fd);
    }
  }
}
