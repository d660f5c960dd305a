/**
 Masked generation of S1AP sessions (srsTwin/digital-twin/model.py and
 tokenize_sessions.py). The network's logits, temperature, top-k and the random draw
 together are an arbitrary choice among the tokens the mask leaves open.
 */
module Generator {
  import opened Collections
  import opened StateMachine

  const EOS := "<EOS>"
  const SPECIAL := {"<PAD>", "<BOS>", "<EOS>", "<UNK>"}

  // ---- tokens ----

  /** `tok.split("|")[0]` */
  function Head(tok: string): (h: string)
    ensures '|' !in h
    ensures |h| <= |tok| && tok[..|h|] == h && (|h| < |tok| ==> tok[|h|] == '|')
  {
    if tok == "" || tok[0] == '|' then "" else [tok[0]] + Head(tok[1..])
  }

  /** What stands behind the first bar. */
  function Tail(tok: string): string {
    if |Head(tok)| < |tok| then tok[|Head(tok)| + 1..] else ""
  }

  /** What session_to_tokens writes behind a message's name. */
  function Suffix(uplink: bool, bucket: nat): string {
    (if uplink then "UL" else "DL") + "|T" + Decimal(bucket)
  }

  /** The token session_to_tokens writes for one message. */
  function Token(name: string, uplink: bool, bucket: nat): string {
    name + "|" + Suffix(uplink, bucket)
  }

  // ---- the mask ----

  /** A valid next message opens this token. */
  predicate OpenedBy(tok: string, name: string) {
    Contains(tok, name) || Contains(name, Head(tok))
  }

  predicate Opens(s: State, tok: string) {
    exists i :: 0 <= i < |ValidNext(s)| && OpenedBy(tok, ValidNext(s)[i])
  }

  /** A valid next message stands in the token behind its first bar. */
  predicate TailShows(s: State, tok: string) {
    exists i :: 0 <= i < |ValidNext(s)| && Contains(Tail(tok), ValidNext(s)[i])
  }

  predicate BarFree(name: string) {
    forall k | 0 <= k < |name| :: name[k] != '|'
  }

  /** Plain: no bar, and an underscore in third place. */
  predicate Plain(name: string) {
    BarFree(name) && |name| > 2 && name[2] == '_'
  }

  lemma PlainNames1()
    ensures Plain("S1_INITIAL_UE_MESSAGE")
    ensures Plain("S1_UE_CONTEXT_RELEASE_COMMAND")
    ensures Plain("S1_UPLINK_NAS_TRANSPORT")
    ensures Plain("S1_DOWNLINK_NAS_TRANSPORT")
    ensures Plain("S1_INITIAL_CONTEXT_SETUP_REQUEST")
    ensures Plain("S1_INITIAL_CONTEXT_SETUP_RESPONSE")
    ensures Plain("S1_LOCATION_REPORTING_CONTROL")
  {
  }

  lemma PlainNames2()
    ensures Plain("S1_LOCATION_REPORT")
    ensures Plain("S1_UE_CAPABILITY_INDICATION")
    ensures Plain("S1_CELL_TRAFFIC_TRACE")
    ensures Plain("S1_MME_STATUS_TRANSFER")
    ensures Plain("S1_ERAB_SETUP_REQUEST")
    ensures Plain("S1_ERAB_SETUP_RESPONSE")
    ensures Plain("S1_ERAB_RELEASE_COMMAND")
  {
  }

  lemma PlainNames3()
    ensures Plain("S1_ERAB_RELEASE_RESPONSE")
    ensures Plain("S1_HANDOVER_REQUIRED")
    ensures Plain("S1_PATH_SWITCH_REQUEST")
    ensures Plain("S1_PATH_SWITCH_REQUEST_ACKNOWLEDGE")
    ensures Plain("S1_UE_CONTEXT_RELEASE_REQUEST")
    ensures Plain("S1_HANDOVER_PREPARATION_FAILURE")
    ensures Plain("S1_UE_CONTEXT_RELEASE_COMPLETE")
  {
  }

  lemma NamesArePlain(m: Message)
    ensures Plain(Name(m))
  {
    PlainNames1();
    PlainNames2();
    PlainNames3();
  }

  lemma NotAcrossTheBar(h: string, t: string, name: string, i: nat)
    requires BarFree(name) && i <= |h| < i + |name|
    ensures !StandsAt(h + "|" + t, name, i)
  {
    var k := |h| - i;
    assert name[k] != '|' && (h + "|" + t)[i + k] == '|';
  }

  lemma StandsOnOneSide(h: string, t: string, name: string, i: nat)
    requires BarFree(name) && name != "" && StandsAt(h + "|" + t, name, i)
    ensures StandsAt(h, name, i) || (i > |h| && StandsAt(t, name, i - |h| - 1))
  {
    if i <= |h| < i + |name| { NotAcrossTheBar(h, t, name, i); }
  }

  lemma StandsInWhole(h: string, t: string, name: string, i: nat)
    ensures StandsAt(h, name, i) ==> StandsAt(h + "|" + t, name, i)
    ensures StandsAt(t, name, i) ==> StandsAt(h + "|" + t, name, i + |h| + 1)
  {
  }

  /** A name without a bar stands in a text before its first bar or behind it. */
  lemma ContainsSplit(h: string, t: string, name: string)
    requires BarFree(name) && name != ""
    ensures Contains(h + "|" + t, name) <==> Contains(h, name) || Contains(t, name)
  {
    var tok := h + "|" + t;
    if Contains(tok, name) {
      var i :| 0 <= i <= |tok| && StandsAt(tok, name, i);
      StandsOnOneSide(h, t, name, i);
    }
    if Contains(h, name) {
      var i :| 0 <= i <= |h| && StandsAt(h, name, i);
      StandsInWhole(h, t, name, i);
    }
    if Contains(t, name) {
      var i :| 0 <= i <= |t| && StandsAt(t, name, i);
      StandsInWhole(h, t, name, i);
    }
  }

  lemma TokenParts(tok: string)
    ensures |Head(tok)| < |tok| ==> tok == Head(tok) + "|" + Tail(tok)
    ensures |Head(tok)| == |tok| ==> tok == Head(tok) && Tail(tok) == ""
  {
  }

  lemma ContainsInToken(tok: string, name: string)
    requires BarFree(name) && name != ""
    ensures Contains(tok, name) <==> Contains(Head(tok), name) || Contains(Tail(tok), name)
  {
    TokenParts(tok);
    if |Head(tok)| < |tok| {
      ContainsSplit(Head(tok), Tail(tok), name);
    } else {
      assert !Contains("", name);
    }
  }

  /** The mask opens a token exactly when the validator accepts its message, or the tail shows a valid one. */
  lemma MaskIsValidatorIff(s: State, tok: string)
    ensures Opens(s, tok) <==> Accepts(s, Head(tok)) || TailShows(s, tok)
  {
    forall i: nat | i < |ValidNext(s)|
      ensures OpenedBy(tok, ValidNext(s)[i])
         <==> Alike(Head(tok), ValidNext(s)[i]) || Contains(Tail(tok), ValidNext(s)[i])
    {
      NamesArePlain(Transitions(s)[i].0);
      ContainsInToken(tok, ValidNext(s)[i]);
    }
  }

  lemma {:induction false} DigitsOnly(n: nat)
    ensures forall k | 0 <= k < |Decimal(n)| :: '0' <= Decimal(n)[k] <= '9'
    decreases n
  {
    if n >= 10 { DigitsOnly(n / 10); }
  }

  lemma {:induction false} HeadOf(name: string, rest: string)
    requires '|' !in name
    ensures Head(name + "|" + rest) == name && Tail(name + "|" + rest) == rest
  {
    if name == "" {
      assert ("" + "|" + rest)[0] == '|';
      assert ("" + "|" + rest)[1..] == rest;
    } else {
      assert name[0] in name && forall c :: c in name[1..] ==> c in name;
      HeadOf(name[1..], rest);
      FirstOff(name, "|", rest);
      assert [name[0]] + name[1..] == name;
      TailOf(name, rest);
    }
  }

  lemma FirstOff<T>(a: seq<T>, b: seq<T>, c: seq<T>)
    requires a != []
    ensures (a + b + c)[0] == a[0] && (a + b + c)[1..] == a[1..] + b + c
  {
  }

  lemma TailOf(name: string, rest: string)
    ensures (name + "|" + rest)[|name| + 1..] == rest
  {
  }

  lemma NoUnderscore(rest: string, m: Message)
    requires forall k | 0 <= k < |rest| :: rest[k] != '_'
    ensures !Contains(rest, Name(m))
  {
    NamesArePlain(m);
    forall at: nat | at <= |rest| ensures !StandsAt(rest, Name(m), at) {
      assert at + 2 < |rest| ==> rest[at + 2] != Name(m)[2];
    }
  }

  lemma SuffixHasNoUnderscore(uplink: bool, bucket: nat)
    ensures forall k | 0 <= k < |Suffix(uplink, bucket)| :: Suffix(uplink, bucket)[k] != '_'
  {
    DigitsOnly(bucket);
  }

  /** For the tokens the training sessions are written in, mask and validator agree. */
  lemma MaskIsValidatorOnSessions(s: State, name: string, uplink: bool, bucket: nat)
    requires '|' !in name
    ensures Head(Token(name, uplink, bucket)) == name
    ensures Opens(s, Token(name, uplink, bucket)) <==> Accepts(s, name)
  {
    var tok, rest := Token(name, uplink, bucket), Suffix(uplink, bucket);
    HeadOf(name, rest);
    MaskIsValidatorIff(s, tok);
    SuffixHasNoUnderscore(uplink, bucket);
    forall i: nat | i < |ValidNext(s)| ensures !Contains(rest, ValidNext(s)[i]) {
      NoUnderscore(rest, Transitions(s)[i].0);
    }
  }

  // ---- generation ----

  /** Context tokens that carry no message. */
  predicate Skipped(tok: string) {
    (|tok| >= 5 && tok[..5] == "CELL_") || tok in SPECIAL
  }

  function Heads(toks: seq<string>): seq<string> {
    Mapped(Head, toks)
  }

  /** The automaton's step on a token. */
  function TokenStep(s: State, tok: string): State {
    NextState(s, Head(tok))
  }

  function ContextStep(s: State, tok: string): State {
    if Skipped(tok) then s else TokenStep(s, tok)
  }

  /** Every token was open in the state its forerunners led to. */
  ghost predicate AllOpened(s: State, toks: seq<string>) {
    Allowed(TokenStep, Opens, s, toks)
  }

  /** A run that one automaton allows, another allows on the images of its names. */
  lemma {:induction false} Simulates<S(!new)>(step: (S, string) -> S, open: (S, string) -> bool,
                                 next: (S, string) -> S, ok: (S, string) -> bool, head: string -> string, s: S,
                                 toks: seq<string>)
    requires forall q, tok :: step(q, tok) == next(q, head(tok))
    requires forall q, tok | tok in toks :: open(q, tok) ==> ok(q, head(tok))
    ensures Walk(step, s, toks) == Walk(next, s, Mapped(head, toks))
    ensures Allowed(step, open, s, toks) ==> Allowed(next, ok, s, Mapped(head, toks))
  {
    if toks != [] {
      var init, last := toks[..|toks| - 1], toks[|toks| - 1];
      assert forall tok :: tok in init ==> tok in toks;
      assert last in toks;
      Simulates(step, open, next, ok, head, s, init);
      assert Mapped(head, toks) == Mapped(head, init) + [head(last)];
      AllowedSnoc(next, ok, s, Mapped(head, init), head(last));
    }
  }

  /** No token of the vocabulary shows a valid message only behind its first bar. */
  ghost predicate TailsPlain(vocab: seq<string>) {
    forall i, s: State | 0 <= i < |vocab| :: TailShows(s, vocab[i]) ==> Accepts(s, Head(vocab[i]))
  }

  /** A token build_vocab can meet: special, a cell, or one message of a session. */
  ghost predicate Known(tok: string) {
    '|' !in tok || exists name, uplink, bucket :: '|' !in name && tok == Token(name, uplink, bucket)
  }

  lemma {:induction false} HeadOfPlain(tok: string)
    requires '|' !in tok
    ensures Head(tok) == tok
  {
    if tok != "" {
      assert tok[0] in tok && forall c :: c in tok[1..] ==> c in tok;
      HeadOfPlain(tok[1..]);
    }
  }

  lemma KnownTailIsPlain(s: State, tok: string)
    requires Known(tok)
    ensures !TailShows(s, tok)
  {
    if '|' in tok {
      var name, uplink, bucket :| '|' !in name && tok == Token(name, uplink, bucket);
      HeadOf(name, Suffix(uplink, bucket));
      SuffixHasNoUnderscore(uplink, bucket);
    } else {
      HeadOfPlain(tok);
    }
    forall i: nat | i < |ValidNext(s)| ensures !Contains(Tail(tok), ValidNext(s)[i]) {
      NoUnderscore(Tail(tok), Transitions(s)[i].0);
    }
  }

  /** A vocabulary built from sessions lets the mask open only what the validator accepts. */
  lemma SessionVocabularyIsPlain(vocab: seq<string>)
    requires forall i | 0 <= i < |vocab| :: Known(vocab[i])
    ensures TailsPlain(vocab)
  {
    forall i, s: State | 0 <= i < |vocab| ensures !TailShows(s, vocab[i]) {
      KnownTailIsPlain(s, vocab[i]);
    }
  }

  /** From any state, the messages of opened tokens are ones the validator goes along with. */
  lemma OpenedAreAllowed(vocab: seq<string>, s: State, toks: seq<string>)
    requires TailsPlain(vocab) && forall tok :: tok in toks ==> tok in vocab
    ensures AllOpened(s, toks) ==> Allowed(NextState, Accepts, s, Heads(toks))
  {
    forall q: State, tok | tok in toks ensures Opens(q, tok) ==> Accepts(q, Head(tok)) {
      MaskIsValidatorIff(q, tok);
    }
    Simulates(TokenStep, Opens, NextState, Accepts, Head, s, toks);
  }

  /** Opened tokens make a session the validator accepts. */
  lemma OpenedIsValid(vocab: seq<string>, toks: seq<string>)
    requires TailsPlain(vocab) && forall tok :: tok in toks ==> tok in vocab
    ensures AllOpened(Idle, toks) ==> ValidSession(Heads(toks))
  {
    OpenedAreAllowed(vocab, Idle, toks);
  }

  // ---- generation ----

  /** Of the first m of these names, one opens this token. */
  predicate OpensUpTo(names: seq<string>, tok: string, m: nat)
    requires m <= |names|
  {
    exists j :: 0 <= j < m && OpenedBy(tok, names[j])
  }

  method MarkOpened(open: array<bool>, vocab: seq<string>, msg: string)
    requires open.Length == |vocab|
    modifies open
    ensures forall i | 0 <= i < |vocab| :: open[i] == (old(open[i]) || OpenedBy(vocab[i], msg))
  {
    for t := 0 to |vocab|
      invariant forall i | 0 <= i < t :: open[i] == (old(open[i]) || OpenedBy(vocab[i], msg))
      invariant forall i | t <= i < |vocab| :: open[i] == old(open[i])
    {
      if OpenedBy(vocab[t], msg) {
        open[t] := true;
      }
    }
  }

  method MarkAll(open: array<bool>, vocab: seq<string>, valid: seq<string>)
    requires open.Length == |vocab|
    modifies open
    ensures forall i | 0 <= i < |vocab| :: open[i] == (old(open[i]) || OpensUpTo(valid, vocab[i], |valid|))
  {
    for m := 0 to |valid|
      invariant forall i | 0 <= i < |vocab| :: open[i] == (old(open[i]) || OpensUpTo(valid, vocab[i], m))
    {
      MarkOpened(open, vocab, valid[m]);
    }
  }

  /** The mask of one step: the end is always open. */
  method Mask(s: State, vocab: seq<string>, eos: nat) returns (mask: seq<bool>)
    requires eos < |vocab|
    ensures |mask| == |vocab| && forall i | 0 <= i < |vocab| :: mask[i] == (i == eos || Opens(s, vocab[i]))
  {
    var open := new bool[|vocab|](_ => false);
    open[eos] := true;
    var valid := ValidNext(s);
    MarkAll(open, vocab, valid);
    mask := open[..];
  }

  /** Whatever the network prefers, the draw hits an open token. */
  ghost predicate DrawsOpen(draw: (nat, seq<bool>) -> nat) {
    forall n, mask: seq<bool>, i | 0 <= i < |mask| && mask[i] :: draw(n, mask) < |mask| && mask[draw(n, mask)]
  }

  /** Which tokens of the vocabulary are open in a state. */
  function MaskOf(s: State, vocab: seq<string>, eos: nat): (mask: seq<bool>)
    ensures |mask| == |vocab|
  {
    seq(|vocab|, i requires 0 <= i < |vocab| => i == eos || Opens(s, vocab[i]))
  }

  function Masks(vocab: seq<string>, eos: nat): State -> seq<bool> {
    s => MaskOf(s, vocab, eos)
  }

  /** This is the token drawn behind these, from the mask of the state they lead to, and not the end. */
  ghost predicate DrawnBehind<S>(step: (S, string) -> S, mask: S -> seq<bool>, start: S, vocab: seq<string>, eos: nat,
                                 draw: (nat, seq<bool>) -> nat, before: seq<string>, tok: string) {
    var i := draw(|before|, mask(Walk(step, start, before)));
    i != eos && i < |vocab| && tok == vocab[i]
  }

  ghost predicate Drawn<S>(step: (S, string) -> S, mask: S -> seq<bool>, start: S, vocab: seq<string>, eos: nat,
                           draw: (nat, seq<bool>) -> nat, toks: seq<string>) {
    forall n | 0 <= n < |toks| :: DrawnBehind(step, mask, start, vocab, eos, draw, toks[..n], toks[n])
  }

  lemma DrawnOneMore<S>(step: (S, string) -> S, mask: S -> seq<bool>, start: S, vocab: seq<string>, eos: nat,
                        draw: (nat, seq<bool>) -> nat, toks: seq<string>, tok: string)
    ensures Drawn(step, mask, start, vocab, eos, draw, toks + [tok])
       <==> Drawn(step, mask, start, vocab, eos, draw, toks)
            && DrawnBehind(step, mask, start, vocab, eos, draw, toks, tok)
    ensures Walk(step, start, toks + [tok]) == step(Walk(step, start, toks), tok)
  {
    var more := toks + [tok];
    assert more[..|toks|] == toks && more[|toks|] == tok;
    assert forall n | 0 <= n < |toks| :: more[..n] == toks[..n] && more[n] == toks[n];
  }

  lemma Appended(a: seq<string>, b: seq<string>, tok: string)
    ensures a + b + [tok] == a + (b + [tok])
  {
  }

  /** What is drawn from masks was open, whatever the masks are made from. */
  lemma {:induction false} DrawnAreOpened<S(!new)>(
    step: (S, string) -> S, mask: S -> seq<bool>, open: (S, string) -> bool, start: S, vocab: seq<string>, eos: nat,
    draw: (nat, seq<bool>) -> nat, toks: seq<string>)
    requires eos < |vocab| && DrawsOpen(draw) && Drawn(step, mask, start, vocab, eos, draw, toks)
    requires forall s :: |mask(s)| == |vocab| && mask(s)[eos]
    requires forall s, i | 0 <= i < |vocab| && i != eos && mask(s)[i] :: open(s, vocab[i])
    ensures Allowed(step, open, start, toks) && forall tok :: tok in toks ==> tok in vocab
  {
    if toks != [] {
      var init, last := toks[..|toks| - 1], toks[|toks| - 1];
      assert toks == init + [last];
      DrawnOneMore(step, mask, start, vocab, eos, draw, init, last);
      DrawnAreOpened(step, mask, open, start, vocab, eos, draw, init);
      var at := Walk(step, start, init);
      assert mask(at)[eos];
      assert mask(at)[draw(|init|, mask(at))];
      AllowedSnoc(step, open, start, init, last);
    }
  }

  /** One masked draw. */
  method DrawNext(state: State, vocab: seq<string>, eos: nat, draw: (nat, seq<bool>) -> nat, n: nat)
    returns (next: nat)
    requires eos < |vocab| && DrawsOpen(draw)
    ensures next == draw(n, MaskOf(state, vocab, eos)) && next < |vocab|
  {
    var mask := Mask(state, vocab, eos);
    assert mask == MaskOf(state, vocab, eos) && mask[eos];
    next := draw(n, mask);
  }

  /** The first loop of `generate`: only protocol messages move the automaton. */
  method ContextState(context: seq<string>) returns (state: State)
    ensures state == Walk(ContextStep, Idle, context)
  {
    state := Idle;
    for k := 0 to |context|
      invariant state == Walk(ContextStep, Idle, context[..k])
    {
      assert context[..k + 1][..k] == context[..k];
      if !Skipped(context[k]) {
        state := NextState(state, Head(context[k]));
      }
    }
    assert context[..|context|] == context;
  }

  /**
   `generate`: the new tokens before the end were each open in their state, the last one
   may be the end, and there are no more of them than asked for.
   */
  method Generate(context: seq<string>, vocab: seq<string>, eos: nat, draw: (nat, seq<bool>) -> nat, maxNew: nat)
    returns (generated: seq<string>, ghost emitted: seq<string>)
    requires eos < |vocab| && DrawsOpen(draw)
    ensures generated == context + emitted || generated == context + emitted + [vocab[eos]]
    ensures |generated| <= |context| + maxNew
    ensures Drawn(TokenStep, Masks(vocab, eos), Walk(ContextStep, Idle, context), vocab, eos, draw, emitted)
    ensures if generated == context + emitted then |emitted| == maxNew
            else draw(|emitted|, MaskOf(Walk(TokenStep, Walk(ContextStep, Idle, context), emitted), vocab, eos)) == eos
    ensures AllOpened(Walk(ContextStep, Idle, context), emitted)
    ensures forall tok :: tok in emitted ==> tok in vocab
  {
    var state := ContextState(context);
    ghost var start, mask := state, Masks(vocab, eos);
    generated, emitted := context, [];
    for n := 0 to maxNew
      invariant generated == context + emitted && |emitted| == n
      invariant state == Walk(TokenStep, start, emitted) && Drawn(TokenStep, mask, start, vocab, eos, draw, emitted)
    {
      var next := DrawNext(state, vocab, eos, draw, n);
      generated := generated + [vocab[next]];
      if next == eos {
        DrawnAreOpened(TokenStep, mask, Opens, start, vocab, eos, draw, emitted);
        return;
      }
      DrawnOneMore(TokenStep, mask, start, vocab, eos, draw, emitted, vocab[next]);
      Appended(context, emitted, vocab[next]);
      state := NextState(state, Head(vocab[next]));
      emitted := emitted + [vocab[next]];
    }
    DrawnAreOpened(TokenStep, mask, Opens, start, vocab, eos, draw, emitted);
  }

  lemma NothingOpensDone(tok: string)
    ensures !Opens(Done, tok)
  {
    assert |ValidNext(Done)| == 0;
  }

  /** After the release completes, nothing but the end is open. */
  lemma DoneLeavesOnlyTheEnd(s: State, toks: seq<string>, k: nat)
    requires AllOpened(s, toks) && k < |toks|
    ensures Walk(TokenStep, s, toks[..k]) != Done
  {
    AllowedPrefix(TokenStep, Opens, s, toks, k);
    NothingOpensDone(toks[k]);
  }

  /** A context of a cell and the start token leaves the automaton idle. */
  lemma FreshContextIsIdle(cell: string)
    ensures Walk(ContextStep, Idle, ["CELL_" + cell, "<BOS>"]) == Idle
  {
    var context := ["CELL_" + cell, "<BOS>"];
    assert context[..1] == ["CELL_" + cell] && ["CELL_" + cell][..0] == [];
    assert ("CELL_" + cell)[..5] == "CELL_";
    assert Walk(ContextStep, Idle, ["CELL_" + cell]) == Idle;
  }

  /**
   Masked generation is sound: with a vocabulary built from sessions, whatever is generated
   for a cell up to the end is a session the validator accepts.
   */
  lemma GeneratedSessionIsValid(cell: string, vocab: seq<string>, emitted: seq<string>)
    requires forall i | 0 <= i < |vocab| :: Known(vocab[i])
    requires forall tok :: tok in emitted ==> tok in vocab
    requires AllOpened(Walk(ContextStep, Idle, ["CELL_" + cell, "<BOS>"]), emitted)
    ensures ValidSession(Heads(emitted))
  {
    FreshContextIsIdle(cell);
    SessionVocabularyIsPlain(vocab);
    OpenedIsValid(vocab, emitted);
  }

  // ---- going on with a session ----

  /** Two automata that take the same steps on these tokens, the second on their images. */
  lemma {:induction false} WalksAlike<S>(step: (S, string) -> S, next: (S, string) -> S, head: string -> string, s: S,
                                         start: seq<string>, toks: seq<string>)
    requires forall q, tok | tok in toks :: step(q, tok) == next(q, head(tok))
    ensures Walk(step, s, start + toks) == Walk(next, Walk(step, s, start), Mapped(head, toks))
  {
    if toks == [] {
      assert start + toks == start;
    } else {
      var init, last := toks[..|toks| - 1], toks[|toks| - 1];
      assert toks == init + [last] && last in toks;
      WalksAlike(step, next, head, s, start, init);
      assert (start + toks)[..|start + toks| - 1] == start + init;
      assert Mapped(head, toks)[..|toks| - 1] == Mapped(head, init);
    }
  }

  lemma ContextWalks(start: seq<string>, toks: seq<string>)
    requires forall tok :: tok in toks ==> !Skipped(tok)
    ensures Walk(ContextStep, Idle, start + toks) == Walk(NextState, Walk(ContextStep, Idle, start), Heads(toks))
  {
    WalksAlike(ContextStep, NextState, Head, Idle, start, toks);
  }

  lemma {:induction false} AllowedConcat<S>(
    next: (S, string) -> S, ok: (S, string) -> bool, s: S, a: seq<string>, b: seq<string>)
    ensures Walk(next, s, a + b) == Walk(next, Walk(next, s, a), b)
    ensures Allowed(next, ok, s, a + b) <==> Allowed(next, ok, s, a) && Allowed(next, ok, Walk(next, s, a), b)
  {
    if b == [] {
      assert a + b == a;
    } else {
      AllowedConcat(next, ok, s, a, b[..|b| - 1]);
      assert (a + b)[..|a + b| - 1] == a + b[..|b| - 1];
    }
  }

  /**
   Given the beginning of a session to go on with, what is generated continues it: if the
   validator accepts the beginning, it accepts the whole.
   */
  lemma ContinuationIsValid(cell: string, prior: seq<string>, vocab: seq<string>, emitted: seq<string>)
    requires forall i | 0 <= i < |vocab| :: Known(vocab[i])
    requires (forall tok :: tok in prior ==> !Skipped(tok)) && forall tok :: tok in emitted ==> tok in vocab
    requires AllOpened(Walk(ContextStep, Idle, ["CELL_" + cell, "<BOS>"] + prior), emitted)
    ensures ValidSession(Heads(prior)) <==> ValidSession(Heads(prior + emitted))
  {
    FreshContextIsIdle(cell);
    ContextWalks(["CELL_" + cell, "<BOS>"], prior);
    SessionVocabularyIsPlain(vocab);
    OpenedAreAllowed(vocab, Walk(NextState, Idle, Heads(prior)), emitted);
    MappedConcat(Head, prior, emitted);
    AllowedConcat(NextState, Accepts, Idle, Heads(prior), Heads(emitted));
  }

  /** How a message of a session is written. */
  lemma TokenReads(name: string)
    ensures Token(name, true, 3) == name + "|UL|T3" && Token(name, false, 0) == name + "|DL|T0"
  {
    assert Decimal(3) == "3" && Decimal(0) == "0";
  }
}
