/**
  The persisted marker of the agent-run reporter (dashboard/provisioner/hivra-agent-trace.py,
  `_parse`, `_refusal`, `_load_marker`, `_live_skips`, `_mark`): a line over MARK_BYTES is named on
  disk while it is parsed, so a parse that kills the process is not tried again. One transcript is
  modelled; a line is named by its number, which its path, inode, offset and length determine.
*/
module CrashMarker {
  import opened Common

  const MAX_SKIPS := 64

  /** The skips of lines not yet committed, each once, in order. */
  function Live(skips: seq<nat>, committed: nat): seq<nat> {
    if skips == [] then []
    else
      var earlier, last := Live(skips[..|skips| - 1], committed), skips[|skips| - 1];
      if last >= committed && last !in earlier then earlier + [last] else earlier
  }

  /** `_live_skips`: only the newest MAX_SKIPS of them are kept. */
  function LiveSkips(skips: seq<nat>, committed: nat): seq<nat> {
    var live := Live(skips, committed);
    if |live| <= MAX_SKIPS then live else live[|live| - MAX_SKIPS..]
  }

  function Elements(s: seq<nat>): set<nat> {
    set x | x in s
  }

  ghost predicate Distinct(s: seq<nat>) {
    forall i, j :: 0 <= i < j < |s| ==> s[i] != s[j]
  }

  lemma {:induction false} DistinctSize(s: seq<nat>)
    requires Distinct(s)
    ensures |Elements(s)| == |s|
  {
    if s == [] {
      assert Elements(s) == {};
    } else {
      var before, last := s[..|s| - 1], s[|s| - 1];
      DistinctSize(before);
      assert Elements(s) == Elements(before) + {last} && last !in Elements(before);
    }
  }

  lemma {:induction false} LiveExact(skips: seq<nat>, committed: nat)
    ensures var live := Live(skips, committed);
            Distinct(live) && forall x :: x in live <==> x in skips && x >= committed
  {
    if skips != [] {
      var before, last := skips[..|skips| - 1], skips[|skips| - 1];
      LiveExact(before, committed);
      assert skips == before + [last];
    }
  }

  lemma SubsetSize(a: set<nat>, b: set<nat>)
    requires a <= b
    ensures |a| <= |b|
  {
    var rest := b - a;
    assert b == a + rest;
  }

  /** With live lines too many, the oldest is forgotten. */
  lemma OldestSkipForgotten(skips: seq<nat>, committed: nat)
    requires |Live(skips, committed)| > MAX_SKIPS
    ensures var oldest := Live(skips, committed)[0];
            oldest in skips && oldest >= committed && oldest !in LiveSkips(skips, committed)
  {
    LiveExact(skips, committed);
    assert Live(skips, committed)[0] in Live(skips, committed);
  }

  lemma LiveSkipsAreLive(skips: seq<nat>, committed: nat)
    ensures forall x :: x in LiveSkips(skips, committed) ==> x in Live(skips, committed)
  {
  }

  /** A skip is kept only while it is live; every live one is kept exactly when at most MAX_SKIPS are live. */
  lemma LiveSkipsExact(skips: seq<nat>, committed: nat)
    ensures forall x :: x in LiveSkips(skips, committed) ==> x in skips && x >= committed
    ensures (forall x :: x in skips && x >= committed ==> x in LiveSkips(skips, committed))
            <==> |Live(skips, committed)| <= 64
  {
    LiveExact(skips, committed);
    LiveSkipsAreLive(skips, committed);
    if |Live(skips, committed)| > MAX_SKIPS {
      OldestSkipForgotten(skips, committed);
    }
  }

  datatype Outcome = Consumed | DiedParsing | DiedElsewhere

  /**
    One transcript of `total` lines. `large` are the lines over MARK_BYTES, `deadly` those whose
    parse may kill the process and `lethal` those whose parse always does. `crashed` and `parses`
    are history: the lines the process died on, and how often the parse of each large line began.
  */
  class Transcript {
    const total: nat
    const large: set<nat>
    const deadly: set<nat>
    const lethal: set<nat>

    // state.json and parsing.json
    var committed: nat
    var marked: Option<nat>
    var skips: seq<nat>

    ghost var crashed: set<nat>
    ghost var parses: multiset<nat>

    constructor (total: nat, large: set<nat>, deadly: set<nat>, lethal: set<nat>)
      requires lethal <= deadly <= large && forall x :: x in large ==> x < total
      ensures this.total == total && this.large == large && this.deadly == deadly && this.lethal == lethal
      ensures Valid() && committed == 0 && crashed == {} && parses == multiset{}
    {
      this.total, this.large, this.deadly, this.lethal := total, large, deadly, lethal;
      committed, marked, skips, crashed, parses := 0, None, [], {}, multiset{};
    }

    ghost predicate Shape()
      reads this
    {
      && lethal <= deadly <= large && (forall x :: x in large ==> x < total)
      && committed <= total && crashed <= deadly
      && (forall x :: x in skips ==> x in crashed)
      && (forall x :: x in lethal ==> parses[x] == if x in crashed then 1 else 0)
      && (forall x :: x in crashed ==> parses[x] > 0)
    }

    /** Between processes: exactly the lines a process died on are named on disk, until they are committed. */
    ghost predicate Valid()
      reads this
    {
      && Shape()
      && (marked.Some? ==> marked.value in crashed)
      && (forall x :: x in crashed && x >= committed ==> x in skips || marked == Some(x))
    }

    /** While a process runs and parses nothing. */
    ghost predicate Running()
      reads this
    {
      Shape() && marked == None && (forall x :: x in crashed && x >= committed ==> x in skips)
    }

    /** Lines that crashed a parse and are not committed yet. */
    ghost function LiveCrashes(): set<nat>
      reads this
    {
      set x | x in crashed && x >= committed
    }

    /** What parsing.json names: the skips and the line in progress. */
    function Named(): seq<nat>
      reads this
    {
      skips + if marked.Some? then [marked.value] else []
    }

    /** The live lines named on disk are the live crashes. */
    lemma NamedIsLive()
      requires Valid()
      ensures |Live(Named(), committed)| == |LiveCrashes()|
      ensures forall x :: x in LiveCrashes() <==> x in Named() && x >= committed
    {
      LiveExact(Named(), committed);
      DistinctSize(Live(Named(), committed));
      assert Elements(Live(Named(), committed)) == LiveCrashes();
    }

    /** `_load_marker`: it skips live crashes only, and all of them exactly when at most MAX_SKIPS are live. */
    method Load() returns (skip: set<nat>)
      requires Valid()
      modifies this`marked, this`skips
      ensures Shape() && marked == None && forall x :: x in skip ==> x in LiveCrashes()
      ensures |LiveCrashes()| <= MAX_SKIPS <==> forall x :: x in LiveCrashes() ==> x in skip
      ensures |LiveCrashes()| <= MAX_SKIPS ==> Running()
    {
      var found := Named();
      NamedIsLive();
      LiveSkipsExact(found, committed);
      marked, skips := None, LiveSkips(found, committed);
      skip := Elements(skips);
    }

    /** `_mark` before a parse */
    method Mark(line: nat)
      requires Running() && |LiveCrashes()| <= MAX_SKIPS
      modifies this`marked, this`skips
      ensures Shape() && marked == Some(line)
      ensures forall x :: x in crashed && x >= committed ==> x in skips
    {
      NamedIsLive();
      LiveSkipsExact(skips, committed);
      assert Named() == skips;
      marked, skips := Some(line), LiveSkips(skips, committed);
    }

    /** `_parse` of a large line under its marker; a parse that dies leaves the marker in place. */
    method ParseLarge(line: nat) returns (died: bool)
      requires Running() && |LiveCrashes()| <= MAX_SKIPS && line in large && line !in crashed
      modifies this
      ensures committed == old(committed) && parses == old(parses) + multiset{line}
      ensures died ==> Valid() && line in deadly && crashed == old(crashed) + {line}
      ensures !died ==> Running() && line !in lethal && crashed == old(crashed)
    {
      Mark(line);
      var unlucky: bool := *;
      died := line in lethal || (line in deadly && unlucky);
      parses := parses + multiset{line};
      if died {
        crashed := crashed + {line};
      } else {
        marked := None;
      }
    }

    /** Every large line of this process's reading so far was parsed once, unless it had crashed a parse. */
    ghost predicate Accounted(before: multiset<nat>, from: nat, position: nat)
      reads this
    {
      forall x :: x in large && x >= from ==> parses[x] == before[x] + if x < position && x !in crashed then 1 else 0
    }

    /** One line: parsed under the marker if it is large, unless it is to be skipped. */
    method TakeLine(line: nat, skip: set<nat>) returns (died: bool)
      requires Running() && |LiveCrashes()| <= MAX_SKIPS && (line in skip <==> line in crashed)
      modifies this
      ensures committed == old(committed)
      ensures died ==> Valid() && line in deadly && line !in old(crashed) && crashed == old(crashed) + {line}
      ensures !died ==> Running() && crashed == old(crashed) && (line in lethal ==> line in crashed)
      ensures forall x ::
                parses[x] == old(parses[x]) + if x == line && line in large && line !in old(crashed) then 1 else 0
    {
      died := false;
      if line in large && line !in skip {
        died := ParseLarge(line);
      }
    }

    /** One line of a process's reading, with the account of what it parsed so far. */
    method ReadLine(line: nat, skip: set<nat>, ghost before: multiset<nat>, ghost from: nat) returns (died: bool)
      requires Running() && |LiveCrashes()| <= MAX_SKIPS && (line in skip <==> line in crashed) && from <= line
      requires Accounted(before, from, line)
      modifies this
      ensures committed == old(committed)
      ensures died ==> Valid() && line in deadly && line !in old(crashed) && crashed == old(crashed) + {line}
      ensures !died ==> Running() && crashed == old(crashed) && Accounted(before, from, line + 1)
      ensures forall x :: x in old(crashed) ==> parses[x] == old(parses[x])
    {
      died := TakeLine(line, skip);
    }

    method Commit(position: nat)
      requires Running() && committed <= position <= total
      modifies this`committed
      ensures Running() && committed == position
    {
      committed := position;
    }

    /**
      One process, from its start to its death or to the end of the transcript. A line is skipped as
      crashed exactly when an earlier process died parsing it. Deaths elsewhere leave no marker.
    */
    method Life(steady: bool) returns (outcome: Outcome)
      requires Valid() && |LiveCrashes()| <= MAX_SKIPS
      modifies this
      ensures Valid() && committed >= old(committed)
      ensures outcome == Consumed ==> committed == total && crashed == old(crashed)
      ensures outcome == DiedParsing ==> exists x :: x in deadly && x !in old(crashed) && crashed == old(crashed) + {x}
      ensures outcome == DiedElsewhere ==> !steady && crashed == old(crashed)
      ensures forall x :: x in old(crashed) && x >= old(committed) ==> parses[x] == old(parses[x])
      ensures outcome == Consumed ==>
                forall x :: x in large && x >= old(committed) ==>
                  parses[x] == old(parses)[x] + if x in old(crashed) then 0 else 1
    {
      ghost var before, from := parses, committed;
      var skip := Load();
      var position := committed;
      while position < total
        invariant Running() && from <= committed <= position <= total && crashed == old(crashed)
        invariant forall x :: x in skip <==> x in crashed && x >= from
        invariant |LiveCrashes()| <= MAX_SKIPS
        invariant Accounted(before, from, position)
        decreases total - position
      {
        if !steady {
          var killed: bool := *;
          if killed {
            outcome := DiedElsewhere;
            return;
          }
        }
        var died := ReadLine(position, skip, before, from);
        if died {
          outcome := DiedParsing;
          return;
        }
        position := position + 1;
        var delivered: bool := *;
        if delivered {
          ghost var earlier := LiveCrashes();
          Commit(position);
          SubsetSize(LiveCrashes(), earlier);
        }
      }
      Commit(total);
      outcome := Consumed;
    }

    /** How many skips are live, from what is on disk. */
    method CountLive() returns (n: nat)
      requires Valid()
      ensures n == |LiveCrashes()|
    {
      NamedIsLive();
      n := |Live(Named(), committed)|;
    }

    /**
      Processes are restarted until the transcript is consumed or more than MAX_SKIPS crashes are live:
      each death is on a new line, so at most one restart per deadly line, and a lethal line is parsed
      at most once in all.
    */
    method Supervise() returns (restarts: nat)
      requires Valid() && crashed == {}
      modifies this
      ensures Valid() && (committed == total || |LiveCrashes()| > MAX_SKIPS)
      ensures restarts <= |crashed| <= |deadly|
      ensures |LiveCrashes()| <= MAX_SKIPS ==> committed == total && restarts == |crashed|
      ensures forall x :: x in lethal ==> parses[x] <= 1
    {
      restarts := 0;
      assert LiveCrashes() == {};
      var outcome := Life(true);
      var live := CountLive();
      while outcome == DiedParsing && live <= MAX_SKIPS
        invariant Valid() && live == |LiveCrashes()|
        invariant outcome == DiedParsing ==> |crashed| == restarts + 1
        invariant outcome != DiedParsing ==> outcome == Consumed && committed == total && |crashed| == restarts
        decreases deadly - crashed, outcome == DiedParsing
      {
        restarts := restarts + 1;
        outcome := Life(true);
        live := CountLive();
      }
      SubsetSize(crashed, deadly);
    }
  }

  /** The first `k` lines. */
  function Below(k: nat): (lines: set<nat>)
    ensures |lines| == k && forall x :: x in lines <==> 0 <= x < k
  {
    if k == 0 then {} else Below(k - 1) + {k - 1}
  }

  /** A process that skips what it is told to skip and dies on line `k`, with nothing committed. */
  method DieOn(t: Transcript, k: nat)
    requires t.Valid() && t.committed == 0 && k < t.total && k in t.lethal && k <= MAX_SKIPS
    requires t.crashed == Below(k)
    modifies t
    ensures t.Valid() && t.committed == 0 && t.crashed == Below(k + 1)
  {
    assert t.LiveCrashes() == Below(k);
    var skip := t.Load();
    var died := false;
    for i := 0 to k
      invariant t.Running() && t.committed == 0 && t.crashed == Below(k)
    {
      died := t.TakeLine(i, skip);
    }
    died := t.TakeLine(k, skip);
    assert Below(k + 1) == Below(k) + {k};
  }

  /** A transcript of `n` lethal lines on each of which a process died, with nothing committed. */
  method DieOnEach(n: nat) returns (t: Transcript)
    requires n <= MAX_SKIPS + 1
    ensures fresh(t) && t.Valid() && t.committed == 0 && t.crashed == t.lethal && |t.crashed| == n
  {
    var lines := Below(n);
    t := new Transcript(n, lines, lines, lines);
    for k := 0 to n
      invariant fresh(t) && t.Valid() && t.committed == 0 && t.total == n && t.lethal == lines && t.crashed == Below(k)
    {
      DieOn(t, k);
    }
  }

  /**
    With one live crash too many, a lethal line that was parsed already is not skipped, so that the
    next process parses it again.
  */
  method OneCrashTooMany() returns (t: Transcript, skip: set<nat>, lost: nat)
    ensures t.Shape() && |t.LiveCrashes()| == 65
    ensures lost in t.lethal && lost in t.LiveCrashes() && t.parses[lost] == 1 && lost !in skip
  {
    t := DieOnEach(MAX_SKIPS + 1);
    assert t.LiveCrashes() == t.crashed;
    skip := t.Load();
    lost :| lost in t.lethal && lost !in skip;
  }
}
