/** The mode request protocol between the client library and the daemon's socket thread, over buffers
    that are not cleared between requests. */
module Protocol {
  import opened Basics

  const BUFFER_SIZE := 100

  const CMD_GETMODE := "CMD_GETMODE"
  const CMD_SETMODE := "CMD_SETMODE"
  const RET_SUCCESS := "RET_SUCCESS"
  const RET_FAILURE := "RET_FAILURE"
  const RET_CMD_NOTIFYCHANGE := "RET_CMD_NOTIFYCHANGE"
  const INITIAL_RET_VALUE := -99
  const WORD := 11

  // ---- C strings ----

  /** Writing msg over the front of a buffer leaves the rest as it was. */
  function Overlay(buffer: seq<char>, msg: seq<char>): (r: seq<char>)
    requires |msg| <= |buffer|
    ensures |r| == |buffer|
  {
    msg + buffer[|msg|..]
  }

  /** The string in a buffer ends at its first NUL. */
  function CString(buffer: seq<char>): string {
    if buffer == [] || buffer[0] == '\0' then [] else [buffer[0]] + CString(buffer[1..])
  }

  predicate IsDigit(c: char) {
    '0' <= c <= '9'
  }

  /** The leading digits of a buffer. */
  function DigitRun(s: seq<char>): (ds: seq<char>)
    ensures ds <= s && forall k :: 0 <= k < |ds| ==> IsDigit(ds[k])
  {
    if s == [] || !IsDigit(s[0]) then [] else [s[0]] + DigitRun(s[1..])
  }

  function Value(ds: seq<char>): nat
    requires forall k :: 0 <= k < |ds| ==> IsDigit(ds[k])
  {
    if ds == [] then 0
    else
      assert IsDigit(ds[|ds| - 1]);
      Value(ds[..|ds| - 1]) * 10 + (ds[|ds| - 1] as int - '0' as int)
  }

  function SkipSpace(s: seq<char>): seq<char> {
    if s != [] && (s[0] == ' ' || '\t' <= s[0] <= '\r') then SkipSpace(s[1..]) else s
  }

  /** Optional white space, an optional sign, and the digits that follow. */
  function Atoi(s: seq<char>): int {
    var t := SkipSpace(s);
    if t != [] && t[0] == '-' then 0 - Value(DigitRun(t[1..]))
    else if t != [] && t[0] == '+' then Value(DigitRun(t[1..]))
    else Value(DigitRun(t))
  }

  /** Space, tab, newline, vertical tab, form feed and carriage return. */
  predicate IsWhite(c: char) {
    c == ' ' || c == '\t' || c == '\n' || c as int == 11 || c as int == 12 || c == '\r'
  }

  lemma {:induction false} SpaceSkips(spaces: seq<char>, s: seq<char>)
    requires forall k :: 0 <= k < |spaces| ==> IsWhite(spaces[k])
    requires s == [] || !IsWhite(s[0])
    ensures SkipSpace(spaces + s) == s
  {
    if spaces == [] {
      assert spaces + s == s;
    } else {
      assert (spaces + s)[1..] == spaces[1..] + s;
      SpaceSkips(spaces[1..], s);
    }
  }

  lemma {:induction false} DigitRunStops(ds: seq<char>, rest: seq<char>)
    requires forall k :: 0 <= k < |ds| ==> IsDigit(ds[k])
    requires rest == [] || !IsDigit(rest[0])
    ensures DigitRun(ds + rest) == ds
  {
    DigitRunJoin(ds, rest);
    assert ds + [] == ds;
  }

  /** Space, a sign, digits, and then anything that is no digit: the signed value of the digits. */
  lemma {:induction false} AtoiReads(spaces: seq<char>, sign: seq<char>, ds: seq<char>, rest: seq<char>)
    requires forall k :: 0 <= k < |spaces| ==> IsWhite(spaces[k])
    requires sign == "" || sign == "+" || sign == "-"
    requires ds != [] && forall k :: 0 <= k < |ds| ==> IsDigit(ds[k])
    requires rest == [] || !IsDigit(rest[0])
    ensures Atoi(spaces + (sign + (ds + rest))) == if sign == "-" then 0 - Value(ds) else Value(ds)
  {
    var s := sign + (ds + rest);
    assert s[0] == if sign == "" then ds[0] else sign[0];
    SpaceSkips(spaces, s);
    DigitRunStops(ds, rest);
    assert s[|sign|..] == ds + rest;
  }

  function Pow10(n: nat): nat {
    if n == 0 then 1 else 10 * Pow10(n - 1)
  }

  // ---- what a stale buffer does to a number ----

  lemma {:induction false} DigitRunJoin(ds: seq<char>, rest: seq<char>)
    requires forall k :: 0 <= k < |ds| ==> IsDigit(ds[k])
    ensures DigitRun(ds + rest) == ds + DigitRun(rest)
  {
    if ds == [] {
      assert ds + rest == rest;
    } else {
      assert (ds + rest)[1..] == ds[1..] + rest;
      DigitRunJoin(ds[1..], rest);
    }
  }

  lemma TenTimes(v: int, p: int, w: int)
    ensures (v * p + w) * 10 == v * (10 * p) + w * 10
  {
  }

  lemma {:induction false} ValueJoin(ds: seq<char>, es: seq<char>)
    requires forall k :: 0 <= k < |ds| ==> IsDigit(ds[k])
    requires forall k :: 0 <= k < |es| ==> IsDigit(es[k])
    ensures forall k :: 0 <= k < |ds + es| ==> IsDigit((ds + es)[k])
    ensures Value(ds + es) == Value(ds) * Pow10(|es|) + Value(es)
  {
    if es == [] {
      assert ds + es == ds;
    } else {
      var fs := es[..|es| - 1];
      assert (ds + es)[..|ds + es| - 1] == ds + fs;
      ValueJoin(ds, fs);
      assert (ds + es)[|ds + es| - 1] == es[|es| - 1];
      TenTimes(Value(ds), Pow10(|fs|), Value(fs));
    }
  }

  lemma {:induction false} Pow10Grows(n: nat)
    ensures Pow10(n) >= 1 && (n > 0 ==> Pow10(n) >= 10)
  {
    if n > 0 {
      Pow10Grows(n - 1);
    }
  }

  lemma ScaledIsSame(v: nat, p: nat, w: nat)
    requires p >= 10
    ensures v * p + w == v <==> v == 0 && w == 0
  {
    if v > 0 {
      assert v * p >= v * 10;
    }
  }

  /** What digits left behind a number make of it. */
  lemma JoinedValue(ds: seq<char>, stale: seq<char>)
    requires forall k :: 0 <= k < |ds| ==> IsDigit(ds[k])
    requires forall k :: 0 <= k < |stale| ==> IsDigit(stale[k])
    ensures forall k :: 0 <= k < |ds + stale| ==> IsDigit((ds + stale)[k])
    ensures Value(ds + stale) == Value(ds) <==> stale == [] || (Value(ds) == 0 && Value(stale) == 0)
    ensures Value(ds) == 0 ==> Value(ds + stale) == Value(stale)
    ensures Value(ds + stale) >= Value(ds) && (stale != [] && Value(ds) > 0 ==> Value(ds + stale) >= 10)
  {
    ValueJoin(ds, stale);
    if stale == [] {
      assert ds + stale == ds;
    } else {
      Pow10Grows(|stale|);
      ScaledIsSame(Value(ds), Pow10(|stale|), Value(stale));
      ProductGrows(Value(ds), Pow10(|stale|));
    }
  }

  lemma ProductGrows(d: nat, p: nat)
    requires p >= 1
    ensures d * p >= d && (d > 0 ==> d * p >= p)
  {
    if d > 0 {
      assert d * p == (d - 1) * p + p;
    }
  }

  /** A number received over an old message is read on into the digits that are left behind it. */
  lemma ReadsOn(buffer: seq<char>, word: seq<char>, ds: seq<char>)
    requires ds != [] && forall k :: 0 <= k < |ds| ==> IsDigit(ds[k])
    requires |word| + |ds| <= |buffer|
    ensures var stale := DigitRun(buffer[|word| + |ds|..]);
      && (forall k :: 0 <= k < |ds + stale| ==> IsDigit((ds + stale)[k]))
      && Atoi(Overlay(buffer, word + ds)[|word|..]) == Value(ds + stale)
  {
    var rest := buffer[|word| + |ds|..];
    var t := Overlay(buffer, word + ds)[|word|..];
    assert t == ds + rest;
    assert SkipSpace(t) == t;
    DigitRunJoin(ds, rest);
  }

  /** So it reads as it was sent if and only if no stale digit follows it, or it and the stale digits are all
      zero. */
  lemma StaleDigitsChangeNumbers(buffer: seq<char>, word: seq<char>, ds: seq<char>)
    requires ds != [] && forall k :: 0 <= k < |ds| ==> IsDigit(ds[k])
    requires |word| + |ds| <= |buffer|
    ensures var stale := DigitRun(buffer[|word| + |ds|..]);
      Atoi(Overlay(buffer, word + ds)[|word|..]) == Value(ds) <==>
        stale == [] || (Value(ds) == 0 && Value(stale) == 0)
  {
    ReadsOn(buffer, word, ds);
    JoinedValue(ds, DigitRun(buffer[|word| + |ds|..]));
  }

  // ---- the server ----

  predicate IsValidMode(mode: int) {
    mode == 0 || mode == 1 || mode == 2
  }

  function DigitOf(mode: int): string
    requires 0 <= mode <= 9
  {
    [('0' as int + mode) as char]
  }

  class SocketServer {
    const str: array<char>
    const sendstr: array<char>
    var mode: int

    ghost predicate Valid()
      reads this, str, sendstr
    {
      && str.Length == sendstr.Length == BUFFER_SIZE && str != sendstr
      && IsValidMode(mode) && sendstr[BUFFER_SIZE - 1] == '\0'
    }

    constructor ()
      ensures Valid() && fresh(str) && fresh(sendstr) && mode == 1
      ensures forall k :: 0 <= k < BUFFER_SIZE ==> str[k] == '\0'
    {
      str := new char[BUFFER_SIZE](_ => '\0');
      sendstr := new char[BUFFER_SIZE](_ => '\0');
      mode := 1;
    }

    /** Copies a message over the front of a buffer, without a terminator. */
    static method CopyInto(a: array<char>, msg: seq<char>)
      requires |msg| <= a.Length
      modifies a
      ensures a[..] == Overlay(old(a[..]), msg)
    {
      var i := 0;
      while i < |msg|
        invariant 0 <= i <= |msg|
        invariant forall k :: 0 <= k < i ==> a[k] == msg[k]
        invariant forall k :: i <= k < a.Length ==> a[k] == old(a[k])
      {
        a[i] := msg[i];
        i := i + 1;
      }
    }

    static method Zero(a: array<char>)
      modifies a
      ensures forall k :: 0 <= k < a.Length ==> a[k] == '\0'
    {
      var i := 0;
      while i < a.Length
        invariant 0 <= i <= a.Length
        invariant forall k :: 0 <= k < i ==> a[k] == '\0'
      {
        a[i] := '\0';
        i := i + 1;
      }
    }

    static method StrLen(a: array<char>) returns (n: nat)
      requires a.Length > 0 && a[a.Length - 1] == '\0'
      ensures n < a.Length && a[n] == '\0' && forall k :: 0 <= k < n ==> a[k] != '\0'
      ensures CString(a[..]) == a[..n]
    {
      n := 0;
      while a[n] != '\0'
        invariant n < a.Length && forall k :: 0 <= k < n ==> a[k] != '\0'
        decreases a.Length - n
      {
        n := n + 1;
      }
      CStringEnds(a[..], n);
    }

    /** Appends to the string in a cleared buffer, with a terminator. */
    static method Append(a: array<char>, ghost word: string, msg: string)
      requires |word| + |msg| < a.Length && word <= a[..]
      requires forall k :: 0 <= k < |word| ==> word[k] != '\0'
      requires forall k :: |word| <= k < a.Length ==> a[k] == '\0'
      modifies a
      ensures a[..|word| + |msg|] == word + msg
      ensures forall k :: |word| + |msg| <= k < a.Length ==> a[k] == '\0'
    {
      var n := StrLen(a);
      forall k | 0 <= k < |word|
        ensures a[k] != '\0'
      {
        assert a[..][k] == word[k];
      }
      assert a[|word|] == '\0';
      assert n == |word|;
      var i := 0;
      while i < |msg|
        invariant 0 <= i <= |msg|
        invariant a[..n + i] == word + msg[..i]
        invariant forall k :: n + i <= k < a.Length ==> a[k] == '\0'
      {
        a[n + i] := msg[i];
        i := i + 1;
      }
      a[n + |msg|] := '\0';
    }

    /** Answers one message. Only the answer to GET starts from a cleared buffer. */
    method Serve(msg: string) returns (reply: Option<string>)
      requires Valid() && |msg| <= BUFFER_SIZE
      modifies this, str, sendstr
      ensures Valid() && str[..] == Overlay(old(str[..]), msg)
      ensures CMD_GETMODE <= str[..] ==> mode == old(mode) && reply == Some(RET_SUCCESS + DigitOf(mode))
      ensures !(CMD_GETMODE <= str[..]) && CMD_SETMODE <= str[..] ==>
        var value := Atoi(str[WORD..]);
        && mode == (if IsValidMode(value) then value else old(mode))
        && reply.Some? && (if IsValidMode(value) then RET_SUCCESS else RET_FAILURE) <= reply.value
      ensures !(CMD_GETMODE <= str[..]) && !(CMD_SETMODE <= str[..]) ==> mode == old(mode) && reply == None
    {
      CopyInto(str, msg);
      if str[..WORD] == CMD_GETMODE {
        Zero(sendstr);
        CopyInto(sendstr, RET_SUCCESS);
        Append(sendstr, RET_SUCCESS, DigitOf(mode));
        WordsHaveNoNul();
        CStringEnds(sendstr[..], WORD + 1);
        reply := SendReply();
      } else if str[..WORD] == CMD_SETMODE {
        var value := Atoi(str[WORD..]);
        if !IsValidMode(value) {
          CopyInto(sendstr, RET_FAILURE);
          ReplyBegins(sendstr[..], RET_FAILURE);
          reply := SendReply();
        } else {
          mode := value;
          CopyInto(sendstr, RET_SUCCESS);
          ReplyBegins(sendstr[..], RET_SUCCESS);
          reply := SendReply();
        }
      } else {
        reply := None;
      }
    }

    /** Another part of the daemon has switched the mode: tells the client, from a buffer of its own. */
    method SwitchTo(to: int) returns (note: string)
      requires Valid() && IsValidMode(to)
      modifies this`mode
      ensures Valid() && mode == to && note == RET_CMD_NOTIFYCHANGE + DigitOf(to)
    {
      mode := to;
      var buffer := new char[BUFFER_SIZE](_ => '\0');
      CopyInto(buffer, RET_CMD_NOTIFYCHANGE);
      WordsHaveNoNul();
      Append(buffer, RET_CMD_NOTIFYCHANGE, DigitOf(mode));
      CStringEnds(buffer[..], |RET_CMD_NOTIFYCHANGE| + 1);
      var n := StrLen(buffer);
      note := buffer[..n];
    }

    method SendReply() returns (reply: Option<string>)
      requires Valid()
      ensures reply == Some(CString(sendstr[..]))
    {
      var n := StrLen(sendstr);
      reply := Some(sendstr[..n]);
    }
  }

  lemma WordsHaveNoNul()
    ensures forall k :: 0 <= k < WORD ==> RET_SUCCESS[k] != '\0' && RET_FAILURE[k] != '\0'
    ensures forall k :: 0 <= k < |RET_CMD_NOTIFYCHANGE| ==> RET_CMD_NOTIFYCHANGE[k] != '\0'
  {
  }

  lemma ReplyBegins(s: seq<char>, word: string)
    requires word == RET_SUCCESS || word == RET_FAILURE
    requires word <= s
    ensures word <= CString(s)
  {
    WordsHaveNoNul();
    CStringKeepsPrefix(s, word);
  }

  lemma {:induction false} CStringKeepsPrefix(s: seq<char>, word: seq<char>)
    requires word <= s && forall k :: 0 <= k < |word| ==> word[k] != '\0'
    ensures word <= CString(s)
  {
    if word != [] {
      CStringKeepsPrefix(s[1..], word[1..]);
    }
  }

  lemma {:induction false} CStringEnds(s: seq<char>, n: nat)
    requires n < |s| && s[n] == '\0' && forall k :: 0 <= k < n ==> s[k] != '\0'
    ensures CString(s) == s[..n]
  {
    if n > 0 {
      CStringEnds(s[1..], n - 1);
      assert s[..n] == [s[0]] + s[1..][..n - 1];
    }
  }

  // ---- the client ----

  class SocketClient {
    var currentcmd: Option<string>
    var ret: int
    var notified: seq<int>

    constructor ()
      ensures currentcmd == None && ret == INITIAL_RET_VALUE && notified == []
    {
      currentcmd, ret, notified := None, INITIAL_RET_VALUE, [];
    }

    /** Makes a command the one whose response is awaited. */
    method Send(cmd: string)
      modifies this
      ensures currentcmd == Some(cmd) && ret == INITIAL_RET_VALUE && notified == old(notified)
    {
      currentcmd := Some(cmd);
      ret := INITIAL_RET_VALUE;
    }

    /** The mode for a successful GET, 0 for a successful SET, -1 otherwise. */
    method ProcessResponse(response: string) returns (r: int)
      modifies this`currentcmd, this`ret
      ensures currentcmd == None
      ensures old(currentcmd) == None ==> r == -1 && ret == old(ret)
      ensures old(currentcmd) != None ==> r == ret == Outcome(old(currentcmd).value, response)
    {
      r := -1;
      if currentcmd == None {
        return;
      }
      var cmd := currentcmd.value;
      if RET_SUCCESS <= response {
        if CMD_GETMODE <= cmd {
          r := Atoi(response[WORD..]);
        } else if CMD_SETMODE <= cmd {
          r := 0;
        }
      } else if RET_FAILURE <= response {
        r := -1;
      } else {
        r := -1;
      }
      currentcmd := None;
      ret := r;
    }

    /** A notification goes to the listener, anything else to the command that waits for it. */
    method Receive(buf: string)
      modifies this
      ensures RET_CMD_NOTIFYCHANGE <= buf ==>
        && currentcmd == old(currentcmd) && ret == old(ret)
        && notified == old(notified) + [Atoi(buf[|RET_CMD_NOTIFYCHANGE|..])]
      ensures !(RET_CMD_NOTIFYCHANGE <= buf) ==> notified == old(notified) && currentcmd == None
      ensures !(RET_CMD_NOTIFYCHANGE <= buf) && old(currentcmd) != None ==> ret == Outcome(old(currentcmd).value, buf)
    {
      if RET_CMD_NOTIFYCHANGE <= buf {
        var newmode := Atoi(buf[|RET_CMD_NOTIFYCHANGE|..]);
        notified := notified + [newmode];
      } else {
        var r := ProcessResponse(buf);
      }
    }
  }

  /** What a response to a command means. */
  function Outcome(cmd: string, response: string): int {
    if RET_SUCCESS <= response && CMD_GETMODE <= cmd then Atoi(response[WORD..])
    else if RET_SUCCESS <= response && CMD_SETMODE <= cmd then 0
    else -1
  }

  lemma DigitReads(d: int, rest: seq<char>)
    requires 0 <= d <= 9 && (rest == [] || rest[0] == '\0')
    ensures Atoi(DigitOf(d) + rest) == d
  {
    var t := DigitOf(d) + rest;
    assert t[1..] == rest && DigitRun(rest) == [];
    assert DigitRun(t) == DigitOf(d);
    assert DigitOf(d)[..0] == [];
    assert Value(DigitOf(d)) == d;
  }

  lemma RepliesAreNotNotes(reply: string, word: string)
    requires word == RET_SUCCESS || word == RET_FAILURE
    requires word <= reply
    ensures !(RET_CMD_NOTIFYCHANGE <= reply)
    ensures word == RET_FAILURE ==> !(RET_SUCCESS <= reply)
  {
    assert reply[4] == word[4] && RET_CMD_NOTIFYCHANGE[4] == 'C' && RET_SUCCESS[4] == 'S' && RET_FAILURE[4] == 'F';
  }

  // ---- what a SET is taken for ----

  /** A number that fits in a message. */
  predicate IsNumber(ds: string) {
    0 < |ds| <= BUFFER_SIZE - WORD && forall k :: 0 <= k < |ds| ==> IsDigit(ds[k])
  }

  /** The digits an earlier message has left behind those of a number. */
  function Stale(str: seq<char>, ds: string): seq<char>
    requires |str| == BUFFER_SIZE && IsNumber(ds)
  {
    DigitRun(str[WORD + |ds|..])
  }

  /** The number the server reads when ds is received into a buffer. */
  function Heard(str: seq<char>, ds: string): nat
    requires |str| == BUFFER_SIZE && IsNumber(ds)
  {
    JoinedValue(ds, Stale(str, ds));
    Value(ds + Stale(str, ds))
  }

  lemma ServerHears(str: seq<char>, ds: string)
    requires |str| == BUFFER_SIZE && IsNumber(ds)
    ensures Atoi(Overlay(str, CMD_SETMODE + ds)[WORD..]) == Heard(str, ds)
  {
    ReadsOn(str, CMD_SETMODE, ds);
  }

  /** A number is heard as itself exactly when no digit is left behind it, or all digits are zero. It is taken for
      another mode exactly when it is zero and a 1 or a 2 is left behind it. It is refused exactly when it is no mode,
      or a digit is left behind it and it is not zero or what is left behind is no mode. */
  lemma SetOutcome(str: seq<char>, ds: string)
    requires |str| == BUFFER_SIZE && IsNumber(ds)
    ensures var stale, heard := Stale(str, ds), Heard(str, ds);
      && (heard == Value(ds) <==> stale == [] || (Value(ds) == 0 && Value(stale) == 0))
      && (IsValidMode(heard) && heard != Value(ds) <==> stale != [] && Value(ds) == 0 && 1 <= Value(stale) <= 2)
      && (!IsValidMode(heard) <==> Value(ds) > 2 || (stale != [] && (Value(ds) > 0 || Value(stale) > 2)))
  {
    JoinedValue(ds, Stale(str, ds));
  }

  // ---- the two together ----

  /** GET returns the mode of the server, whatever was received before. */
  method GetMode(server: SocketServer, client: SocketClient) returns (r: int)
    requires server.Valid()
    modifies server, server.str, server.sendstr, client
    ensures server.Valid() && server.str[..] == Overlay(old(server.str[..]), CMD_GETMODE)
    ensures server.mode == old(server.mode) && r == client.ret == server.mode && client.notified == old(client.notified)
  {
    client.Send(CMD_GETMODE);
    var reply := server.Serve(CMD_GETMODE);
    assert server.str[..][..WORD] == CMD_GETMODE;
    RepliesAreNotNotes(reply.value, RET_SUCCESS);
    DigitReads(server.mode, []);
    assert reply.value[WORD..] == DigitOf(server.mode) + [];
    client.Receive(reply.value);
    r := client.ret;
  }

  /** SET returns 0 and takes effect exactly when the number heard is a mode, and -1 otherwise. */
  method SetMode(server: SocketServer, client: SocketClient, ds: string) returns (r: int)
    requires server.Valid() && IsNumber(ds)
    modifies server, server.str, server.sendstr, client
    ensures server.Valid() && server.str[..] == Overlay(old(server.str[..]), CMD_SETMODE + ds)
    ensures var heard := Heard(old(server.str[..]), ds);
      && server.mode == (if IsValidMode(heard) then heard else old(server.mode))
      && r == client.ret == (if IsValidMode(heard) then 0 else -1)
    ensures client.notified == old(client.notified)
  {
    var cmd := CMD_SETMODE + ds;
    client.Send(cmd);
    ghost var before := server.str[..];
    var reply := server.Serve(cmd);
    assert server.str[..] == cmd + before[|cmd|..];
    assert server.str[..][..WORD] == CMD_SETMODE;
    assert CMD_GETMODE[4] != CMD_SETMODE[4];
    ServerHears(before, ds);
    assert server.str[WORD..] == Overlay(before, cmd)[WORD..];
    RepliesAreNotNotes(reply.value, if IsValidMode(Heard(before, ds)) then RET_SUCCESS else RET_FAILURE);
    client.Receive(reply.value);
    r := client.ret;
  }

  /** A switch by gestures reaches the client as a notification and answers no command. */
  method SwitchMode(server: SocketServer, client: SocketClient, to: int)
    requires server.Valid() && IsValidMode(to)
    modifies server, client
    ensures server.Valid() && server.str[..] == old(server.str[..]) && server.mode == to
    ensures client.notified == old(client.notified) + [to]
    ensures client.currentcmd == old(client.currentcmd) && client.ret == old(client.ret)
  {
    var note := server.SwitchTo(to);
    DigitReads(to, []);
    assert note[|RET_CMD_NOTIFYCHANGE|..] == DigitOf(to) + [];
    client.Receive(note);
  }

  // ---- sessions ----

  datatype Request = Get | Set(ds: string) | Switch(to: int)

  predicate IsRequest(request: Request) {
    && (request.Set? ==> IsNumber(request.ds))
    && (request.Switch? ==> IsValidMode(request.to))
  }

  /** The mode of the server and what its receive buffer holds. */
  datatype Talk = Talk(mode: int, str: seq<char>)

  function Next(t: Talk, request: Request): (u: Talk)
    requires |t.str| == BUFFER_SIZE && IsRequest(request)
    ensures |u.str| == BUFFER_SIZE
  {
    match request
    case Get => t.(str := Overlay(t.str, CMD_GETMODE))
    case Set(ds) =>
      var heard := Heard(t.str, ds);
      Talk(if IsValidMode(heard) then heard else t.mode, Overlay(t.str, CMD_SETMODE + ds))
    case Switch(to) => t.(mode := to)
  }

  function Result(t: Talk, request: Request): int
    requires |t.str| == BUFFER_SIZE && IsRequest(request)
  {
    match request
    case Get => t.mode
    case Set(ds) => if IsValidMode(Heard(t.str, ds)) then 0 else -1
    case Switch(to) => to
  }

  ghost predicate AreRequests(requests: seq<Request>) {
    forall k :: 0 <= k < |requests| ==> IsRequest(requests[k])
  }

  function After(t: Talk, requests: seq<Request>): (u: Talk)
    requires |t.str| == BUFFER_SIZE && AreRequests(requests)
    ensures |u.str| == BUFFER_SIZE
  {
    if requests == [] then t
    else Next(After(t, requests[..|requests| - 1]), requests[|requests| - 1])
  }

  function Results(t: Talk, requests: seq<Request>): (results: seq<int>)
    requires |t.str| == BUFFER_SIZE && AreRequests(requests)
    ensures |results| == |requests|
  {
    if requests == [] then []
    else
      var before := requests[..|requests| - 1];
      Results(t, before) + [Result(After(t, before), requests[|requests| - 1])]
  }

  /** Each result follows from the mode and the buffer that the requests before it leave. */
  lemma {:induction false} ResultAt(t: Talk, requests: seq<Request>, k: nat)
    requires |t.str| == BUFFER_SIZE && AreRequests(requests) && k < |requests|
    ensures Results(t, requests)[k] == Result(After(t, requests[..k]), requests[k])
  {
    var n := |requests| - 1;
    if k < n {
      ResultAt(t, requests[..n], k);
      assert requests[..n][..k] == requests[..k];
    }
  }

  function Notes(requests: seq<Request>): seq<int> {
    if requests == [] then []
    else
      var last := requests[|requests| - 1];
      Notes(requests[..|requests| - 1]) + if last.Switch? then [last.to] else []
  }

  method Exchange(server: SocketServer, client: SocketClient, request: Request) returns (r: int)
    requires server.Valid() && IsRequest(request)
    modifies server, server.str, server.sendstr, client
    ensures server.Valid()
    ensures Talk(server.mode, server.str[..]) == Next(Talk(old(server.mode), old(server.str[..])), request)
    ensures r == Result(Talk(old(server.mode), old(server.str[..])), request)
    ensures client.notified == old(client.notified) + if request.Switch? then [request.to] else []
  {
    match request {
      case Get =>
        r := GetMode(server, client);
      case Set(ds) =>
        r := SetMode(server, client, ds);
      case Switch(to) =>
        SwitchMode(server, client, to);
        r := to;
    }
  }

  /** A session of any length, on a server with any past, with switches by gestures in between. */
  method Session(server: SocketServer, client: SocketClient, requests: seq<Request>) returns (results: seq<int>)
    requires server.Valid() && AreRequests(requests)
    modifies server, server.str, server.sendstr, client
    ensures server.Valid()
    ensures Talk(server.mode, server.str[..]) == After(Talk(old(server.mode), old(server.str[..])), requests)
    ensures results == Results(Talk(old(server.mode), old(server.str[..])), requests)
    ensures client.notified == old(client.notified) + Notes(requests)
  {
    results := [];
    ghost var start := Talk(server.mode, server.str[..]);
    for i := 0 to |requests|
      invariant server.Valid() && Talk(server.mode, server.str[..]) == After(start, requests[..i])
      invariant results == Results(start, requests[..i])
      invariant client.notified == old(client.notified) + Notes(requests[..i])
    {
      assert IsRequest(requests[i]);
      assert requests[..i + 1][..i] == requests[..i];
      var r := Exchange(server, client, requests[i]);
      results := results + [r];
    }
    assert requests[..|requests|] == requests;
  }

  /** The last mode that was set, or the mode at the start. */
  function LastSet(mode: int, requests: seq<Request>): int
    requires AreRequests(requests)
  {
    if requests == [] then mode
    else
      var last, before := requests[|requests| - 1], LastSet(mode, requests[..|requests| - 1]);
      match last
      case Get => before
      case Set(ds) => if IsValidMode(Value(ds)) then Value(ds) else before
      case Switch(to) => to
  }

  ghost predicate OneDigit(requests: seq<Request>) {
    forall k :: 0 <= k < |requests| && requests[k].Set? ==> |requests[k].ds| == 1
  }

  /** Requests with one digit leave the rest of the buffer alone. */
  lemma {:induction false} OneDigitKeepsTail(t: Talk, requests: seq<Request>)
    requires |t.str| == BUFFER_SIZE && AreRequests(requests) && OneDigit(requests)
    ensures After(t, requests).str[WORD + 1..] == t.str[WORD + 1..]
  {
    if requests != [] {
      OneDigitKeepsTail(t, requests[..|requests| - 1]);
    }
  }

  /** Unless a longer number was received before the session, one-digit requests behave as if the buffers were
      cleared: the mode is the last valid one set, and a SET tells whether it was valid. */
  lemma {:induction false} OneDigitSession(t: Talk, requests: seq<Request>, request: Request)
    requires |t.str| == BUFFER_SIZE && !IsDigit(t.str[WORD + 1])
    requires AreRequests(requests) && OneDigit(requests) && IsRequest(request)
    ensures After(t, requests).mode == LastSet(t.mode, requests)
    ensures request.Get? ==> Result(After(t, requests), request) == LastSet(t.mode, requests)
    ensures request.Set? && |request.ds| == 1 ==>
      Result(After(t, requests), request) == if IsValidMode(Value(request.ds)) then 0 else -1
  {
    var u := After(t, requests);
    OneDigitKeepsTail(t, requests);
    assert u.str[WORD + 1..][0] == t.str[WORD + 1..][0];
    if request.Set? && |request.ds| == 1 {
      SetOutcome(u.str, request.ds);
    }
    if requests != [] {
      var before, last := requests[..|requests| - 1], requests[|requests| - 1];
      OneDigitSession(t, before, last);
      if last.Set? {
        OneDigitKeepsTail(t, before);
        assert After(t, before).str[WORD + 1..][0] == t.str[WORD + 1..][0];
        SetOutcome(After(t, before).str, last.ds);
      }
    }
  }

  /** After a 12, a 1 is read as 12 and refused, and a 0 is read as 2 and switches to volume mode. */
  lemma TwelveLingers(t: Talk)
    requires |t.str| == BUFFER_SIZE && !IsDigit(t.str[WORD + 2])
    ensures var u := Next(t, Set("12"));
      && u.mode == t.mode && Result(t, Set("12")) == -1
      && Heard(u.str, "1") == 12 && Heard(u.str, "0") == 2
      && Result(u, Set("1")) == -1 && Next(u, Set("1")).mode == t.mode
      && Result(u, Set("0")) == 0 && Next(u, Set("0")).mode == 2
  {
    Digits();
    SetOutcome(t.str, "12");
    var u := Overlay(t.str, CMD_SETMODE + "12");
    assert u[WORD + 1] == '2' && u[WORD + 2] == t.str[WORD + 2];
    assert u[WORD + 1..][0] == '2' && u[WORD + 1..][1..] == u[WORD + 2..];
    assert DigitRun(u[WORD + 1..]) == "2";
    SetOutcome(u, "1");
    SetOutcome(u, "0");
    ValueJoin("0", "2");
  }

  lemma Digits()
    ensures Value("0") == 0 && Value("1") == 1 && Value("2") == 2 && Value("12") == 12
  {
    assert "0"[..0] == [] && "1"[..0] == [] && "2"[..0] == [] && "12"[..1] == "1";
  }
}
