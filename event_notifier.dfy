// The scout event alert: whether a round of observations warrants a
// message, and the message itself, a header naming the environment and one
// line per triggered observation.
module EventNotifier {
  import opened Wrappers
  import Text
  import SR = ScoutRecord

  /** The observer entry of an observation: missing, explicitly null, or a
      section with its trigger value (when present) and its event types
      (empty when absent). */
  datatype ObserverField = Missing | Null | Section(triggered: Option<SR.Value>, types: seq<string>)

  datatype Observation = Observation(observer: ObserverField, slot: Option<string>)

  /** The observations by stock, a dictionary in insertion order. */
  type Observations = seq<(string, Observation)>

  /** The observation's observer carries a truthy trigger value. */
  predicate Triggered(o: Observation)
  {
    o.observer.Section? && o.observer.triggered.Some? && SR.Truthy(o.observer.triggered.value)
  }

  /** `should_notify`: scan the observations and stop at the first
      triggered one. */
  method ShouldNotify(observations: Observations) returns (notify: bool)
    ensures notify <==> exists i :: 0 <= i < |observations| && Triggered(observations[i].1)
  {
    var i := 0;
    while i < |observations|
      invariant i <= |observations|
      invariant forall j :: 0 <= j < i ==> !Triggered(observations[j].1)
    {
      var observer := observations[i].1.observer;
      if observer.Section? && observer.triggered.Some? && SR.Truthy(observer.triggered.value) {
        return true;
      }
      i := i + 1;
    }
    return false;
  }

  function Header(env: Option<string>): string
  {
    "🚨 SCOUT EVENT (" + env.GetOr("UNKNOWN") + ")"
  }

  /** The event types joined with ", ", or "UNSPECIFIED" for none. */
  function TypeText(types: seq<string>): string
  {
    if types == [] then "UNSPECIFIED" else Text.Join(", ", types)
  }

  /** The line for one triggered observation. */
  function AlertLine(stock: string, o: Observation): string
    requires o.observer.Section?
  {
    "- " + stock + " [" + o.slot.GetOr("UNKNOWN") + "] → " + TypeText(o.observer.types)
  }

  /** The lines for the triggered observations, in order. */
  function AlertLines(observations: Observations): seq<string>
  {
    if observations == [] then []
    else
      var init, last := AlertLines(observations[..|observations| - 1]), observations[|observations| - 1];
      if Triggered(last.1) then init + [AlertLine(last.0, last.1)] else init
  }

  /** Some observation has an explicit null observer. */
  predicate HasNullObserver(observations: Observations)
  {
    exists i :: 0 <= i < |observations| && observations[i].1.observer.Null?
  }

  /** `format_event_alert`: the header and one line per triggered
      observation, joined by newlines; none when an observer entry is null,
      which the source fails on. */
  method FormatEventAlert(env: Option<string>, observations: Observations) returns (text: Option<string>)
    ensures HasNullObserver(observations) <==> text.None?
    ensures text.Some? ==> text.value == Text.Join("\n", [Header(env)] + AlertLines(observations))
  {
    var lines := [Header(env)];
    var i := 0;
    while i < |observations|
      invariant i <= |observations|
      invariant lines == [Header(env)] + AlertLines(observations[..i])
      invariant forall j :: 0 <= j < i ==> !observations[j].1.observer.Null?
    {
      assert observations[..i + 1][..i] == observations[..i];
      var (stock, obs) := observations[i];
      if obs.observer.Null? {
        return None;
      }
      if obs.observer.Section? && obs.observer.triggered.Some? && SR.Truthy(obs.observer.triggered.value) {
        lines := lines + [AlertLine(stock, obs)];
      }
      i := i + 1;
    }
    assert observations[..i] == observations;
    text := Some(Text.Join("\n", lines));
  }

  /** How many observations are triggered. */
  function CountTriggered(observations: Observations): (n: nat)
    ensures n <= |observations|
  {
    if observations == [] then 0
    else CountTriggered(observations[..|observations| - 1]) + (if Triggered(observations[|observations| - 1].1) then 1 else 0)
  }

  /** As many lines as triggered observations. */
  lemma {:induction false} AlertLinesCount(observations: Observations)
    ensures |AlertLines(observations)| == CountTriggered(observations)
  {
    if observations != [] {
      AlertLinesCount(observations[..|observations| - 1]);
    }
  }

  /** One line per triggered observation and no other: each line is the
      line of a triggered observation, and there are no lines exactly when
      `should_notify` would say no. */
  lemma {:induction false} AlertLinesRule(observations: Observations)
    ensures forall line :: line in AlertLines(observations) ==>
      exists i :: 0 <= i < |observations| && Triggered(observations[i].1)
                  && line == AlertLine(observations[i].0, observations[i].1)
    ensures AlertLines(observations) == [] <==> forall i :: 0 <= i < |observations| ==> !Triggered(observations[i].1)
  {
    if observations != [] {
      var init := observations[..|observations| - 1];
      AlertLinesRule(init);
      assert forall i :: 0 <= i < |init| ==> init[i] == observations[i];
    }
  }

  /** The number of newline characters in a text. */
  function Newlines(s: string): nat
  {
    if s == [] then 0 else (if s[0] == '\n' then 1 else 0) + Newlines(s[1..])
  }

  lemma {:induction false} NewlinesZero(s: string)
    ensures Newlines(s) == 0 <==> '\n' !in s
  {
    if s != [] {
      NewlinesZero(s[1..]);
      assert s == [s[0]] + s[1..];
    }
  }

  lemma {:induction false} NewlinesAppend(a: string, b: string)
    ensures Newlines(a + b) == Newlines(a) + Newlines(b)
  {
    if a == [] {
      assert a + b == b;
    } else {
      assert (a + b)[0] == a[0];
      assert (a + b)[1..] == a[1..] + b;
      NewlinesAppend(a[1..], b);
    }
  }

  /** Joining newline-free parts with a newline-free separator gives a
      newline-free text. */
  lemma {:induction false} JoinNoNewlines(sep: string, parts: seq<string>)
    requires '\n' !in sep && forall k :: 0 <= k < |parts| ==> '\n' !in parts[k]
    ensures '\n' !in Text.Join(sep, parts)
  {
    if |parts| > 1 {
      JoinNoNewlines(sep, parts[1..]);
    }
  }

  /** Joining newline-free parts with newlines gives one newline fewer than
      parts. */
  lemma {:induction false} JoinLines(parts: seq<string>)
    requires parts != [] && forall k :: 0 <= k < |parts| ==> '\n' !in parts[k]
    ensures Newlines(Text.Join("\n", parts)) == |parts| - 1
  {
    if |parts| == 1 {
      NewlinesZero(parts[0]);
    } else {
      JoinLines(parts[1..]);
      NewlinesZero(parts[0]);
      NewlinesAppend(parts[0], "\n");
      NewlinesAppend(parts[0] + "\n", Text.Join("\n", parts[1..]));
    }
  }

  /** The alert lines are newline-free when the lines of the triggered
      observations are. */
  lemma {:induction false} AlertLinesClean(observations: Observations)
    requires forall i :: 0 <= i < |observations| && Triggered(observations[i].1) ==>
      '\n' !in AlertLine(observations[i].0, observations[i].1)
    ensures forall k :: 0 <= k < |AlertLines(observations)| ==> '\n' !in AlertLines(observations)[k]
  {
    if observations != [] {
      AlertLinesClean(observations[..|observations| - 1]);
    }
  }

  /** The header is one line when the environment name is. */
  lemma HeaderClean(env: Option<string>)
    requires '\n' !in env.GetOr("UNKNOWN")
    ensures '\n' !in Header(env)
  {
    var e := env.GetOr("UNKNOWN");
    assert Header(env) == "🚨 SCOUT EVENT (" + e + ")";
    assert forall k :: 0 <= k < |"🚨 SCOUT EVENT ("| ==> "🚨 SCOUT EVENT ("[k] != '\n';
    assert forall k :: 0 <= k < |Header(env)| ==> Header(env)[k] != '\n' by {
      forall k | 0 <= k < |Header(env)| ensures Header(env)[k] != '\n' {
        if k >= |"🚨 SCOUT EVENT ("| + |e| {
          assert Header(env)[k] == ')';
        } else if k >= |"🚨 SCOUT EVENT ("| {
          assert Header(env)[k] == e[k - |"🚨 SCOUT EVENT ("|];
        }
      }
    }
  }

  /** When the environment and the lines hold no newline, the alert has
      exactly one line break per triggered observation, so each of them is
      a line of its own after the header. */
  lemma AlertLineCount(env: Option<string>, observations: Observations)
    requires '\n' !in env.GetOr("UNKNOWN")
    requires forall i :: 0 <= i < |observations| && Triggered(observations[i].1) ==>
      '\n' !in AlertLine(observations[i].0, observations[i].1)
    ensures Newlines(Text.Join("\n", [Header(env)] + AlertLines(observations))) == CountTriggered(observations)
  {
    var lines := AlertLines(observations);
    AlertLinesCount(observations);
    AlertLinesClean(observations);
    HeaderClean(env);
    ConsClean(Header(env), lines);
    JoinLines([Header(env)] + lines);
  }

  /** A newline-free part in front of newline-free parts. */
  lemma ConsClean(x: string, parts: seq<string>)
    requires '\n' !in x && forall k :: 0 <= k < |parts| ==> '\n' !in parts[k]
    ensures forall k :: 0 <= k < |[x] + parts| ==> '\n' !in ([x] + parts)[k]
  {
    forall k | 0 <= k < |[x] + parts| ensures '\n' !in ([x] + parts)[k] {
      if k > 0 {
        assert ([x] + parts)[k] == parts[k - 1];
      }
    }
  }

  /** A line holds no newline when the stock, the slot and the types hold
      none. */
  lemma AlertLineNoNewlines(stock: string, o: Observation)
    requires o.observer.Section?
    requires '\n' !in stock && '\n' !in o.slot.GetOr("UNKNOWN")
    requires forall k :: 0 <= k < |o.observer.types| ==> '\n' !in o.observer.types[k]
    ensures '\n' !in AlertLine(stock, o)
  {
    if o.observer.types != [] {
      JoinNoNewlines(", ", o.observer.types);
    }
  }
}
