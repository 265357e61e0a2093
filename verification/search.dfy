/** The search box: trimming the typed text and the debounce-and-dedup state machine that
    decides when a geocoding request goes out. The 250 ms timer is an abstract `Fire` event. */
module Search {
  import opened Wrappers

  /** The characters `String.prototype.trim` removes: ECMAScript white space
      (tab, vertical tab, form feed, space, no-break space, byte order mark and the other
      space separators) and line terminators. */
  predicate IsSpace(c: char)
  {
    || c == '\t' || c == '\n' || c == '\U{B}' || c == '\U{C}' || c == '\r' || c == ' '
    || c == '\U{A0}' || c == '\U{1680}' || ('\U{2000}' <= c <= '\U{200A}')
    || c == '\U{2028}' || c == '\U{2029}' || c == '\U{202F}' || c == '\U{205F}'
    || c == '\U{3000}' || c == '\U{FEFF}'
  }

  /** The same characters by code point: U+0009 to U+000D, U+0020, U+00A0, U+1680,
      U+2000 to U+200A, U+2028, U+2029, U+202F, U+205F, U+3000 and U+FEFF. */
  const SpaceCodePoints: set<int> :=
    {0x9, 0xA, 0xB, 0xC, 0xD, 0x20, 0xA0, 0x1680,
     0x2000, 0x2001, 0x2002, 0x2003, 0x2004, 0x2005, 0x2006, 0x2007, 0x2008, 0x2009, 0x200A,
     0x2028, 0x2029, 0x202F, 0x205F, 0x3000, 0xFEFF}

  /** The white-space characters are exactly those code points. */
  lemma IsSpaceCodePoints(c: char)
    ensures IsSpace(c) <==> c as int in SpaceCodePoints
  {
  }

  /** The text without its leading white space. */
  function TrimStart(s: string): (r: string)
    ensures |r| <= |s| && r == s[|s| - |r|..]
    ensures forall i :: 0 <= i < |s| - |r| ==> IsSpace(s[i])
    ensures r == [] || !IsSpace(r[0])
  {
    if s != [] && IsSpace(s[0]) then TrimStart(s[1..]) else s
  }

  /** The text without its trailing white space. */
  function TrimEnd(s: string): (r: string)
    ensures |r| <= |s| && r == s[..|r|]
    ensures forall i :: |r| <= i < |s| ==> IsSpace(s[i])
    ensures r == [] || !IsSpace(r[|r| - 1])
  {
    if s != [] && IsSpace(s[|s| - 1]) then TrimEnd(s[..|s| - 1]) else s
  }

  /** `trim()`: the text without white space at either end. It is the text with a white-space
      prefix and a white-space suffix cut off; it is empty exactly when the text is all white
      space, and otherwise starts and ends with a visible character. */
  function Trim(s: string): (r: string)
    ensures r == [] <==> forall i :: 0 <= i < |s| ==> IsSpace(s[i])
    ensures r != [] ==> !IsSpace(r[0]) && !IsSpace(r[|r| - 1])
    ensures exists i, j :: 0 <= i <= j <= |s| && r == s[i..j]
              && (forall k :: 0 <= k < i ==> IsSpace(s[k]))
              && (forall k :: j <= k < |s| ==> IsSpace(s[k]))
  {
    TrimBlank(s);
    TrimVisibleEnds(s);
    var t := TrimStart(s);
    var r := TrimEnd(t);
    CutEnds(s, t, r);
    r
  }

  /** Trimming both ends leaves nothing exactly when the text is all white space. */
  lemma TrimBlank(s: string)
    ensures TrimEnd(TrimStart(s)) == [] <==> forall i :: 0 <= i < |s| ==> IsSpace(s[i])
  {
    var t := TrimStart(s);
    var r := TrimEnd(t);
    assert t != [] ==> 0 < |r|;
    if r == [] && t != [] {
      assert false;
    }
  }

  /** A non-empty trimmed text starts and ends with a visible character. */
  lemma TrimVisibleEnds(s: string)
    ensures var r := TrimEnd(TrimStart(s));
            r != [] ==> !IsSpace(r[0]) && !IsSpace(r[|r| - 1])
  {
    var t := TrimStart(s);
    var r := TrimEnd(t);
    assert r != [] ==> r[0] == t[0];
  }

  /** Cutting a white-space prefix off `s`, leaving `t`, and then a white-space suffix off
      `t`, leaving `r`, leaves a slice of `s` with only white space before and after it. */
  lemma CutEnds(s: string, t: string, r: string)
    requires |t| <= |s| && t == s[|s| - |t|..]
    requires forall k :: 0 <= k < |s| - |t| ==> IsSpace(s[k])
    requires |r| <= |t| && r == t[..|r|]
    requires forall k :: |r| <= k < |t| ==> IsSpace(t[k])
    ensures r == s[|s| - |t|..|s| - |t| + |r|]
    ensures forall k :: 0 <= k < |s| - |t| ==> IsSpace(s[k])
    ensures forall k :: |s| - |t| + |r| <= k < |s| ==> IsSpace(s[k])
  {
    forall k | |s| - |t| + |r| <= k < |s|
      ensures IsSpace(s[k])
    {
      assert s[k] == t[k - (|s| - |t|)];
    }
  }

  /** The session state of the search box: the last query sent to the geocoder, and the
      query held by the pending debounce timer, if one is pending. */
  datatype SearchState = SearchState(lastQuery: string, armed: Option<string>)

  /** The state when the page loads. */
  const Initial: SearchState := SearchState("", None)

  /** A pending timer never holds an empty query. */
  predicate Valid(s: SearchState)
  {
    s.armed.Some? ==> s.armed.value != ""
  }

  /** What can happen to the search box: the user edits the text, or the pending timer fires. */
  datatype Event = Input(value: string) | Fire

  /** The effect of one event: the new state, whether the suggestion panel is hidden, and
      the geocoding request sent, if any. */
  datatype Transition = Transition(next: SearchState, hidePanel: bool, request: Option<string>)

  /** The input handler and the timer callback. An input cancels the pending timer; a
      blank query hides the panel and arms nothing, any other query arms a timer for it.
      A firing timer sends its query unless it equals the last query sent. */
  function Step(s: SearchState, e: Event): (t: Transition)
    ensures e.Input? ==> t.request == None && t.next.lastQuery == s.lastQuery
    ensures e.Input? ==> (t.hidePanel <==> Trim(e.value) == "")
    ensures e.Input? ==> t.next.armed == (if Trim(e.value) == "" then None else Some(Trim(e.value)))
    ensures e.Fire? ==> !t.hidePanel
    ensures t.next.armed.Some? ==> e.Input?
    ensures t.request.Some? <==> e.Fire? && s.armed.Some? && s.armed.value != s.lastQuery
    ensures t.request.Some? ==> t.request == s.armed && t.next.lastQuery == t.request.value
    ensures t.request.None? ==> t.next.lastQuery == s.lastQuery
    ensures Valid(t.next)
  {
    match e
    case Input(value) =>
      var q := Trim(value);
      if q == "" then Transition(SearchState(s.lastQuery, None), true, None)
      else Transition(SearchState(s.lastQuery, Some(q)), false, None)
    case Fire =>
      match s.armed
      case None => Transition(s, false, None)
      case Some(q) =>
        if q == s.lastQuery then Transition(SearchState(s.lastQuery, None), false, None)
        else Transition(SearchState(q, None), false, Some(q))
  }

  /** The final state and the requests sent, in order, when `events` happen from `s`. */
  function Run(s: SearchState, events: seq<Event>): (r: (SearchState, seq<string>))
    decreases |events|
    ensures |r.1| <= |events|
    ensures Valid(s) ==> Valid(r.0)
    ensures events != [] && events[|events| - 1].Fire? ==> r.0.armed == None
  {
    if events == [] then (s, [])
    else
      var t := Step(s, events[0]);
      var rest := Run(t.next, events[1..]);
      (rest.0, (if t.request.Some? then [t.request.value] else []) + rest.1)
  }

  /** However the user types and the timers fire, no request repeats the one before it
      (nor the last query sent before the run), no request is blank, and the last request
      is what `lastQuery` ends up holding. */
  lemma {:induction false} RequestsNeverRepeat(s: SearchState, events: seq<Event>)
    requires Valid(s)
    decreases |events|
    ensures var (final, sent) := Run(s, events);
            && (forall i :: 0 <= i < |sent| ==> sent[i] != "")
            && (forall i :: 0 <= i < |sent| - 1 ==> sent[i] != sent[i + 1])
            && (sent != [] ==> sent[0] != s.lastQuery && final.lastQuery == sent[|sent| - 1])
            && (sent == [] ==> final.lastQuery == s.lastQuery)
  {
    if events != [] {
      var t := Step(s, events[0]);
      RequestsNeverRepeat(t.next, events[1..]);
      var rest := Run(t.next, events[1..]);
      if t.request.Some? {
        var sent := [t.request.value] + rest.1;
        assert Run(s, events).1 == sent;
        forall i | 0 <= i < |sent| - 1 ensures sent[i] != sent[i + 1] {
          if i > 0 {
            assert sent[i] == rest.1[i - 1] && sent[i + 1] == rest.1[i];
          }
        }
      }
    }
  }

  /** Typing the same query twice, each time letting the timer fire, sends at most one request. */
  lemma SameQueryTwice(s: SearchState, value: string)
    requires Valid(s)
    ensures |Run(s, [Input(value), Fire, Input(value), Fire]).1| <= 1
  {
    var events := [Input(value), Fire, Input(value), Fire];
    RequestsNeverRepeat(s, events);
    var t0 := Step(s, events[0]);
    var t1 := Step(t0.next, events[1]);
    var t2 := Step(t1.next, events[2]);
    var t3 := Step(t2.next, events[3]);
    assert Run(t2.next, events[3..]).1 == if t3.request.Some? then [t3.request.value] else [];
    assert Run(t1.next, events[2..]).1 == Run(t2.next, events[3..]).1;
    assert Run(t0.next, events[1..]).1 ==
      (if t1.request.Some? then [t1.request.value] else []) + Run(t2.next, events[3..]).1;
  }

  /** A blank input cancels the timer armed by the input before it: when the timer would
      have fired, nothing is sent. */
  lemma BlankInputCancels(s: SearchState, v: string, w: string)
    requires Trim(w) == ""
    ensures Run(s, [Input(v), Input(w), Fire]).1 == []
  {
    var events := [Input(v), Input(w), Fire];
    var t0 := Step(s, events[0]);
    var t1 := Step(t0.next, events[1]);
    assert t1.next.armed == None;
    assert events[1..][1..] == [Fire];
    assert Run(t1.next, events[1..][1..]).1 == [];
  }
}
