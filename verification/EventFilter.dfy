/** Which events a protocol subscription shows. */
module EventFilter {
  import opened Wrappers
  import opened Tables

  /** The client's selection, and the thread's open interrupts when the stream started. */
  datatype Filter = Filter(channels: seq<string>, namespaces: seq<seq<string>>, depth: Option<int>, interrupts: set<string>)

  const REQUESTED := "input.requested"

  function BeforeColon(method_: string): string {
    if method_ == "" || method_[0] == ':' then "" else [method_[0]] + BeforeColon(method_[1..])
  }

  /** All input methods share one channel; otherwise a method belongs to the channel before its colon. */
  function ChannelOf(method_: string): string {
    if "input." <= method_ then "input" else BeforeColon(method_)
  }

  predicate ChannelMatches(method_: string, channels: seq<string>) {
    channels == [] || "*" in channels || ChannelOf(method_) in channels || method_ in channels
  }

  /** The namespace lies below the selected one, no deeper than asked for. */
  predicate Selects(selector: seq<string>, namespace: seq<string>, depth: Option<int>) {
    && selector <= namespace
    && (depth.Some? ==> |namespace| - |selector| <= (if depth.value > 0 then depth.value else 0))
  }

  predicate NamespaceMatches(namespace: seq<string>, selectors: seq<seq<string>>, depth: Option<int>) {
    selectors == [] || exists i :: 0 <= i < |selectors| && Selects(selectors[i], namespace, depth)
  }

  method MatchNamespace(namespace: seq<string>, selectors: seq<seq<string>>, depth: Option<int>) returns (matches: bool)
    ensures matches == NamespaceMatches(namespace, selectors, depth)
  {
    if selectors == [] { return true; }
    for i := 0 to |selectors|
      invariant forall j :: 0 <= j < i ==> !Selects(selectors[j], namespace, depth)
    {
      var selected := selectors[i];
      if |selected| > |namespace| || namespace[..|selected|] != selected { continue; }
      var distance := |namespace| - |selected|;
      if depth.None? || distance <= (if depth.value > 0 then depth.value else 0) { return true; }
    }
    return false;
  }

  /** What a live message must satisfy. */
  predicate WireMatches(f: Filter, e: Event) {
    ChannelMatches(e.topic, f.channels) && NamespaceMatches(e.namespace, f.namespaces, f.depth)
  }

  /** A replayed request for input is shown only while its interrupt, named by the payload, is open. */
  predicate StillActive(f: Filter, e: Event) {
    e.topic == REQUESTED && e.payload != "" ==> e.payload in f.interrupts
  }

  /** What a replayed row must satisfy. */
  predicate Shows(f: Filter, resumable: set<RunId>, e: Event) {
    (e.run.None? || e.run.value in resumable) && StillActive(f, e) && WireMatches(f, e)
  }

  lemma {:induction false} BeforeColonIsPrefix(method_: string, c: string)
    ensures c == BeforeColon(method_) <==> ':' !in c && (method_ == c || c + ":" <= method_)
    decreases |method_|
  {
    if method_ == "" || method_[0] == ':' {
    } else {
      BeforeColonIsPrefix(method_[1..], BeforeColon(method_[1..]));
      var before := BeforeColon(method_[1..]);
      assert BeforeColon(method_) == [method_[0]] + before;
      if c == BeforeColon(method_) {
        assert method_ == [method_[0]] + method_[1..];
        if method_[1..] != before { assert c + ":" == [method_[0]] + (before + ":"); }
      }
      if ':' !in c && (method_ == c || c + ":" <= method_) {
        assert c != "" && c[0] == method_[0] && c == [c[0]] + c[1..];
        assert method_ != c ==> c[1..] + ":" == (c + ":")[1..];
        BeforeColonIsPrefix(method_[1..], c[1..]);
      }
    }
  }

  /** A subscription without channels, or to everything, shows every method; otherwise a method is shown if it is named in
      full or by its channel, which is "input" for all input methods and the text before the colon for the others. */
  lemma ChannelsSelect(method_: string, channels: seq<string>)
    ensures ChannelMatches(method_, channels) <==>
              || channels == [] || "*" in channels || method_ in channels
              || (if "input." <= method_ then "input" in channels
                  else exists c :: c in channels && ':' !in c && (method_ == c || c + ":" <= method_))
  {
    forall c | c in channels
      ensures c == BeforeColon(method_) <==> ':' !in c && (method_ == c || c + ":" <= method_)
    {
      BeforeColonIsPrefix(method_, c);
    }
  }

  /** What a replay and what the live queue show of an event, in the terms of the subscription. */
  lemma ShownExactly(f: Filter, resumable: set<RunId>, e: Event)
    ensures var below := if f.depth.Some? && f.depth.value > 0 then f.depth.value else 0;
            var inScope := exists i :: 0 <= i < |f.namespaces| && f.namespaces[i] <= e.namespace
                                       && (f.depth.Some? ==> |e.namespace| <= |f.namespaces[i]| + below);
            WireMatches(f, e) <==> ChannelMatches(e.topic, f.channels) && (f.namespaces == [] || inScope)
    ensures Shows(f, resumable, e) <==>
              && WireMatches(f, e)
              && (e.run.Some? ==> e.run.value in resumable)
              && (e.topic == "input.requested" && e.payload != "" ==> e.payload in f.interrupts)
  {
  }
}
