/**
 The event bus: which subscriptions an event reaches, who may subscribe to what, and how a
 publication delivers. Names have three dotted segments; the name check also lets a final line
 break through, as the end anchor of its regular expression does.
 */
module EventBus {
  // ---------------------------------------------------------------- dotted names

  predicate IsSegment(s: string) {
    && s != "" && 'a' <= s[0] <= 'z'
    && forall i :: 0 <= i < |s| ==> 'a' <= s[i] <= 'z' || '0' <= s[i] <= '9' || s[i] == '_'
  }

  function FirstDot(s: string): (i: nat)
    ensures i <= |s| && '.' !in s[..i] && (i < |s| ==> s[i] == '.')
  {
    if s == "" || s[0] == '.' then 0
    else
      var i := 1 + FirstDot(s[1..]);
      assert s[..i] == [s[0]] + s[1..][..i - 1];
      i
  }

  function Split(s: string): (parts: seq<string>)
    ensures |parts| >= 1
  {
    var i := FirstDot(s);
    if i == |s| then [s] else [s[..i]] + Split(s[i + 1..])
  }

  function Chomp(s: string): string {
    if s != "" && s[|s| - 1] == '\n' then s[..|s| - 1] else s
  }

  predicate AreSegments(parts: seq<string>) {
    forall i :: 0 <= i < |parts| ==> IsSegment(parts[i])
  }

  predicate IsName(s: string) {
    var parts := Split(Chomp(s));
    |parts| == 3 && AreSegments(parts)
  }

  predicate IsPrefixPattern(s: string) {
    var parts := Split(Chomp(s));
    2 <= |parts| <= 3 && parts[|parts| - 1] == "*" && AreSegments(parts[..|parts| - 1])
  }

  predicate IsPattern(s: string) {
    s == "*" || IsPrefixPattern(s) || IsName(s)
  }

  predicate IsWildcard(pattern: string) {
    pattern == "*" || (|pattern| >= 2 && pattern[|pattern| - 2..] == ".*")
  }

  predicate PatternMatches(pattern: string, name: string) {
    if pattern == "*" then true
    else if |pattern| >= 2 && pattern[|pattern| - 2..] == ".*" then pattern[..|pattern| - 1] <= name
    else pattern == name
  }

  // ---------------------------------------------------------------- what patterns mean

  lemma NoDot(s: string)
    requires IsSegment(s)
    ensures '.' !in s && '\n' !in s && '*' !in s
  {
  }

  lemma DotAt(a: string, rest: string)
    requires '.' !in a
    ensures FirstDot(a + "." + rest) == |a|
  {
    var s := a + "." + rest;
    var i := FirstDot(s);
    assert s[|a|] == '.';
    forall k | 0 <= k < i ensures s[k] != '.' {
      assert s[k] in s[..i];
    }
    forall k | 0 <= k < |a| ensures s[k] != '.' {
      assert s[k] == a[k] && a[k] in a;
    }
  }

  lemma SplitStep(a: string, rest: string)
    requires '.' !in a
    ensures Split(a + "." + rest) == [a] + Split(rest)
  {
    var s := a + "." + rest;
    DotAt(a, rest);
    assert s[..|a|] == a && s[|a| + 1..] == rest;
  }

  lemma SplitLast(a: string)
    requires '.' !in a
    ensures Split(a) == [a]
  {
    assert forall k :: 0 <= k < |a| ==> a[k] != '.';
  }

  function Dotted(a: string, b: string, c: string): string {
    a + "." + (b + "." + c)
  }

  lemma SplitThree(a: string, b: string, c: string)
    requires '.' !in a && '.' !in b && '.' !in c
    ensures Split(Dotted(a, b, c)) == [a, b, c]
  {
    SplitStep(a, b + "." + c);
    SplitStep(b, c);
    SplitLast(c);
  }

  lemma CutAt(s: string, i: nat)
    requires i < |s| && s[i] == '.'
    ensures s == s[..i] + "." + s[i + 1..]
  {
  }

  lemma JoinParts(s: string)
    ensures |Split(s)| == 1 ==> s == Split(s)[0]
    ensures |Split(s)| > 1 ==> FirstDot(s) < |s| && s == Split(s)[0] + "." + s[FirstDot(s) + 1..]
                               && Split(s[FirstDot(s) + 1..]) == Split(s)[1..]
  {
    var i := FirstDot(s);
    if i < |s| {
      var rest := s[i + 1..];
      CutAt(s, i);
      assert Split(s) == [s[..i]] + Split(rest);
    } else {
      assert Split(s) == [s];
    }
  }

  lemma JoinThree(s: string)
    requires |Split(s)| == 3
    ensures s == Dotted(Split(s)[0], Split(s)[1], Split(s)[2])
  {
    JoinParts(s);
    var rest := s[FirstDot(s) + 1..];
    JoinParts(rest);
    JoinParts(rest[FirstDot(rest) + 1..]);
  }

  /** The checked names are the three-segment ones, with or without a line break at the end. */
  lemma NameExactly(s: string)
    ensures IsName(s) <==> exists a, b, c :: IsSegment(a) && IsSegment(b) && IsSegment(c)
                                             && (s == Dotted(a, b, c) || s == Dotted(a, b, c) + "\n")
  {
    if IsName(s) {
      var parts := Split(Chomp(s));
      JoinThree(Chomp(s));
      assert IsSegment(parts[0]) && IsSegment(parts[1]) && IsSegment(parts[2]);
      assert s == Chomp(s) || s == Chomp(s) + "\n";
    }
    forall a, b, c | IsSegment(a) && IsSegment(b) && IsSegment(c)
      && (s == Dotted(a, b, c) || s == Dotted(a, b, c) + "\n")
      ensures IsName(s)
    {
      SegmentsAreName(a, b, c, s);
    }
  }

  lemma SegmentsAreName(a: string, b: string, c: string, s: string)
    requires IsSegment(a) && IsSegment(b) && IsSegment(c) && (s == Dotted(a, b, c) || s == Dotted(a, b, c) + "\n")
    ensures IsName(s)
  {
    NoDot(a);
    NoDot(b);
    NoDot(c);
    SplitThree(a, b, c);
    var t := Dotted(a, b, c);
    assert t[|t| - 1] == c[|c| - 1] && c[|c| - 1] in c;
    ChompBack(t, s);
  }

  lemma ChompBack(t: string, s: string)
    requires t != "" && t[|t| - 1] != '\n' && (s == t || s == t + "\n")
    ensures Chomp(s) == t
  {
    assert (t + "\n")[..|t|] == t;
  }

  /** A first segment with its dot is a prefix exactly when it is the first segment. */
  lemma SegmentPrefix(m: string, a: string, rest: string)
    requires '.' !in m && '.' !in a
    ensures m + "." <= a + "." + rest <==> m == a
  {
    var s := a + "." + rest;
    assert FirstDot(s) == |a| by {
      DotAt(a, rest);
    }
    if m + "." <= s {
      assert s == m + "." + s[|m| + 1..];
      DotAt(m, s[|m| + 1..]);
      assert m == s[..|m|] && a == s[..|a|];
    }
  }

  /** `module.*` reaches exactly the events of the module. */
  lemma ModulePattern(m: string, a: string, b: string, c: string, tail: string)
    requires IsSegment(m) && IsSegment(a) && IsSegment(b) && IsSegment(c)
    ensures PatternMatches(m + ".*", Dotted(a, b, c) + tail) <==> m == a
  {
    NoDot(m);
    NoDot(a);
    var pattern := m + ".*";
    assert pattern[|pattern| - 2..] == ".*" && pattern[..|pattern| - 1] == m + ".";
    assert pattern != "*";
    assert Dotted(a, b, c) + tail == a + "." + (b + "." + c + tail);
    SegmentPrefix(m, a, b + "." + c + tail);
  }

  lemma TwoSegmentPrefix(m: string, e: string, a: string, b: string, rest: string)
    requires '.' !in m && '.' !in e && '.' !in a && '.' !in b
    ensures m + "." + (e + ".") <= a + "." + (b + "." + rest) <==> m == a && e == b
  {
    var s := a + "." + (b + "." + rest);
    SegmentPrefix(m, a, b + "." + rest);
    SegmentPrefix(e, b, rest);
    if m == a && e == b {
      assert s == m + "." + (e + ".") + rest;
    }
    if m + "." + (e + ".") <= s {
      assert m + "." <= s;
      assert e + "." == s[|m| + 1..|m| + 1 + |e| + 1];
      assert s[|a| + 1..] == b + "." + rest;
    }
  }

  /** `module.entity.*` reaches exactly the events of the entity. */
  lemma EntityPattern(m: string, e: string, a: string, b: string, c: string, tail: string)
    requires IsSegment(m) && IsSegment(e) && IsSegment(a) && IsSegment(b) && IsSegment(c)
    ensures PatternMatches(m + "." + (e + ".*"), Dotted(a, b, c) + tail) <==> m == a && e == b
  {
    NoDot(m);
    NoDot(e);
    NoDot(a);
    NoDot(b);
    var pattern := m + "." + (e + ".*");
    assert pattern[|pattern| - 2..] == ".*" && pattern[..|pattern| - 1] == m + "." + (e + ".");
    assert pattern != "*";
    assert Dotted(a, b, c) + tail == a + "." + (b + "." + (c + tail));
    TwoSegmentPrefix(m, e, a, b, c + tail);
  }

  /** A pattern that is a name reaches that event alone, and is no wildcard. */
  lemma ExactPattern(a: string, b: string, c: string, name: string)
    requires IsSegment(a) && IsSegment(b) && IsSegment(c)
    ensures PatternMatches(Dotted(a, b, c), name) <==> Dotted(a, b, c) == name
    ensures !IsWildcard(Dotted(a, b, c))
  {
    NoDot(c);
    var pattern := Dotted(a, b, c);
    assert pattern[|pattern| - 1] == c[|c| - 1];
    assert c[|c| - 1] in c;
    assert pattern[|pattern| - 2..][1] == pattern[|pattern| - 1] != '*';
  }

  const LETTERS := "abcdefghijklmnopqrstuvwxyz"
  const TAIL_CHARACTERS := LETTERS + "0123456789_"

  lemma LetterExactly(c: char)
    ensures c in LETTERS <==> 'a' <= c <= 'z'
  {
    if 'a' <= c <= 'z' {
      assert LETTERS[c as int - 'a' as int] == c;
    }
  }

  lemma DigitExactly(c: char)
    ensures c in "0123456789_" <==> '0' <= c <= '9' || c == '_'
  {
    if '0' <= c <= '9' {
      assert "0123456789_"[c as int - '0' as int] == c;
    } else if c == '_' {
      assert "0123456789_"[10] == c;
    }
  }

  /** A segment starts with a small letter and goes on with small letters, digits and underscores. */
  lemma SegmentExactly(s: string)
    ensures IsSegment(s) <==> s != "" && s[0] in LETTERS && forall c :: c in s ==> c in TAIL_CHARACTERS
  {
    forall c: char ensures c in TAIL_CHARACTERS <==> 'a' <= c <= 'z' || '0' <= c <= '9' || c == '_' {
      LetterExactly(c);
      DigitExactly(c);
    }
    if s != "" {
      LetterExactly(s[0]);
    }
    assert forall i :: 0 <= i < |s| ==> s[i] in s;
  }

  /** The prefix patterns are a module or an entity of one, followed by the star. */
  lemma PrefixPatternExactly(s: string)
    ensures IsPrefixPattern(s) <==>
            exists a, b ::
              IsSegment(a) && (Chomp(s) == a + "." + "*" || (IsSegment(b) && Chomp(s) == Dotted(a, b, "*")))
  {
    var t := Chomp(s);
    if IsPrefixPattern(s) {
      var parts := Split(t);
      assert IsSegment(parts[..|parts| - 1][0]);
      if |parts| == 2 {
        JoinTwo(t);
        assert t == parts[0] + "." + "*";
      } else {
        assert IsSegment(parts[..|parts| - 1][1]);
        JoinThree(t);
        assert t == Dotted(parts[0], parts[1], "*");
      }
    }
    forall a, b | IsSegment(a) && (t == a + "." + "*" || (IsSegment(b) && t == Dotted(a, b, "*")))
      ensures IsPrefixPattern(s)
    {
      NoDot(a);
      if t == a + "." + "*" {
        SplitStep(a, "*");
        SplitLast("*");
        assert Split(t) == [a, "*"];
      } else {
        NoDot(b);
        SplitThree(a, b, "*");
      }
    }
  }

  lemma JoinTwo(s: string)
    requires |Split(s)| == 2
    ensures s == Split(s)[0] + "." + Split(s)[1]
  {
    JoinParts(s);
    JoinParts(s[FirstDot(s) + 1..]);
  }

  /** The star alone reaches every event. */
  lemma StarReachesAll(name: string)
    ensures PatternMatches("*", name) && IsWildcard("*") && IsPattern("*")
  {
  }

  /** A pattern reaches one name at most exactly if it is no wildcard. */
  ghost predicate OneName(pattern: string) {
    forall a, b :: PatternMatches(pattern, a) && PatternMatches(pattern, b) ==> a == b
  }

  lemma WildcardExactly(pattern: string)
    ensures IsWildcard(pattern) <==> !OneName(pattern)
  {
    if IsWildcard(pattern) {
      var stem := if pattern == "*" then "" else pattern[..|pattern| - 1];
      assert stem <= stem + "a" && stem <= stem + "b";
      assert (stem + "a")[|stem|] != (stem + "b")[|stem|];
      assert PatternMatches(pattern, stem + "a") && PatternMatches(pattern, stem + "b");
    }
  }

  // ---------------------------------------------------------------- the bus

  datatype Subscription = Subscription(pattern: string, reliable: bool, id: string, maintenance: bool, package: string)

  datatype Failure = BadValue | NotAllowed

  datatype Reply = Done | Refused(why: Failure)

  /** The subscriptions an event reaches, in the order they were registered. */
  function Reached(subscriptions: seq<Subscription>, name: string): seq<Subscription> {
    if subscriptions == [] then []
    else
      var last := subscriptions[|subscriptions| - 1];
      Reached(subscriptions[..|subscriptions| - 1], name) + if PatternMatches(last.pattern, name) then [last] else []
  }

  ghost predicate DistinctIds(subscriptions: seq<Subscription>) {
    forall i, j :: 0 <= i < j < |subscriptions| ==> subscriptions[i].id != subscriptions[j].id
  }

  /** Every matching subscription is reached, once. */
  lemma {:induction false} ReachedOnce(subscriptions: seq<Subscription>, name: string)
    requires DistinctIds(subscriptions)
    ensures forall s :: s in Reached(subscriptions, name) <==> s in subscriptions && PatternMatches(s.pattern, name)
    ensures DistinctIds(Reached(subscriptions, name))
  {
    if subscriptions != [] {
      var n := |subscriptions| - 1;
      ReachedOnce(subscriptions[..n], name);
      assert subscriptions == subscriptions[..n] + [subscriptions[n]];
      forall s | s in Reached(subscriptions[..n], name) ensures s.id != subscriptions[n].id {
        assert s in subscriptions[..n];
      }
    }
  }

  /** The index by id agrees with the list. */
  ghost predicate Indexed(subscriptions: seq<Subscription>, byId: map<string, Subscription>) {
    && DistinctIds(subscriptions)
    && (forall id :: id in byId ==> byId[id].id == id && byId[id] in subscriptions)
    && (forall s :: s in subscriptions ==> s.id in byId && byId[s.id] == s)
  }

  lemma IndexedMore(subscriptions: seq<Subscription>, byId: map<string, Subscription>, s: Subscription)
    requires Indexed(subscriptions, byId) && s.id !in byId
    ensures Indexed(subscriptions + [s], byId[s.id := s])
  {
    assert forall i :: 0 <= i < |subscriptions| ==> subscriptions[i] in subscriptions;
  }

  /** Only core packages listen widely or as maintenance, and maintenance is reliable. */
  predicate Privileged(s: Subscription) {
    && IsPattern(s.pattern)
    && (s.maintenance ==> s.reliable)
    && (IsWildcard(s.pattern) || s.maintenance ==> s.package == "core")
  }

  /** Outside core a subscription hears one event name at most and never as maintenance. */
  lemma PrivilegedExactly(s: Subscription)
    ensures Privileged(s) <==> && IsPattern(s.pattern)
                               && (s.maintenance ==> s.reliable)
                               && (s.package == "core" || (OneName(s.pattern) && !s.maintenance))
  {
    WildcardExactly(s.pattern);
  }

  predicate AnyReliable(subscriptions: seq<Subscription>) {
    exists i :: 0 <= i < |subscriptions| && subscriptions[i].reliable
  }

  function Ids(subscriptions: seq<Subscription>): seq<string> {
    if subscriptions == [] then []
    else Ids(subscriptions[..|subscriptions| - 1]) + [subscriptions[|subscriptions| - 1].id]
  }

  /** The calls that raise, in order. */
  function Failed(calls: seq<string>, failing: set<string>): seq<string> {
    if calls == [] then []
    else Failed(calls[..|calls| - 1], failing) + if calls[|calls| - 1] in failing then [calls[|calls| - 1]] else []
  }

  class Bus {
    var subscriptions: seq<Subscription>
    var byId: map<string, Subscription>
    var bound: bool

    ghost predicate Valid()
      reads this
    {
      Indexed(subscriptions, byId) && forall s :: s in subscriptions ==> Privileged(s)
    }

    constructor ()
      ensures Valid() && subscriptions == [] && !bound
    {
      subscriptions, byId, bound := [], map[], false;
    }

    method BindEnqueue()
      modifies this`bound
      ensures bound
    {
      bound := true;
    }

    /** `package` is the first part of the handler's module name, `id` its full name. */
    method Subscribe(pattern: string, reliable: bool, maintenance: bool, package: string, id: string)
      returns (reply: Reply)
      requires Valid()
      modifies this`subscriptions, this`byId
      ensures Valid()
      ensures var s := Subscription(pattern, reliable, id, maintenance, package);
              && (reply == Done <==> Privileged(s) && id !in old(byId))
              && (reply == Refused(BadValue) <==> !IsPattern(pattern) || (maintenance && !reliable))
              && subscriptions == old(subscriptions) + if reply == Done then [s] else []
    {
      if !IsPattern(pattern) || (maintenance && !reliable) {
        return Refused(BadValue);
      }
      if (IsWildcard(pattern) || maintenance) && package != "core" {
        return Refused(NotAllowed);
      }
      if id in byId {
        return Refused(NotAllowed);
      }
      var s := Subscription(pattern, reliable, id, maintenance, package);
      IndexedMore(subscriptions, byId, s);
      subscriptions := subscriptions + [s];
      byId := byId[id := s];
      reply := Done;
    }

    /** Call or enqueue each handler in turn; an error is logged and the next one follows. */
    method CallAll(matching: seq<Subscription>, failing: set<string>) returns (calls: seq<string>, logged: seq<string>)
      ensures calls == Ids(matching) && logged == Failed(calls, failing)
    {
      calls, logged := [], [];
      for i := 0 to |matching|
        invariant calls == Ids(matching[..i]) && logged == Failed(calls, failing)
      {
        assert matching[..i + 1][..i] == matching[..i];
        assert (calls + [matching[i].id])[..|calls|] == calls;
        calls := calls + [matching[i].id];
        if matching[i].id in failing {
          logged := logged + [matching[i].id];
        }
      }
      assert matching[..|matching|] == matching;
    }

    /**
     Deliver an event: `calls` lists the handlers called or enqueued. Those in `failing` raise an
     error, which never keeps the others from their turn.
     */
    method Publish(name: string, failing: set<string>) returns (reply: Reply, calls: seq<string>, logged: seq<string>)
      requires Valid()
      ensures reply == Refused(BadValue) <==> !IsName(name)
      ensures reply == Refused(NotAllowed) <==> IsName(name) && !bound && AnyReliable(Reached(subscriptions, name))
      ensures reply != Done ==> calls == [] && logged == []
      ensures reply == Done ==> calls == Ids(Reached(subscriptions, name)) && logged == Failed(calls, failing)
    {
      calls, logged := [], [];
      if !IsName(name) {
        return Refused(BadValue), calls, logged;
      }
      var matching := Reached(subscriptions, name);
      if !bound && AnyReliable(matching) {
        return Refused(NotAllowed), calls, logged;
      }
      calls, logged := CallAll(matching, failing);
      reply := Done;
    }
  }
}
