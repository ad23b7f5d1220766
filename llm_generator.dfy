/** `LlmGenerator`: reading the SQL out of a chat completion, and the retry
    loop around the completion call. The chat client is a parameter. */
module LlmGenerator {
  import opened Common
  import opened PromptBuilder

  // ---------------------------------------------------------------------------
  // Searching a string
  // ---------------------------------------------------------------------------

  predicate OccursAt(s: string, pat: string, j: nat)
  {
    j + |pat| <= |s| && s[j..j + |pat|] == pat
  }

  /** The first position at or after `i` where `pat` occurs. */
  function FindFrom(s: string, pat: string, i: nat): (r: Option<nat>)
    ensures r.Some? ==> i <= r.value && OccursAt(s, pat, r.value)
    ensures r.Some? ==> forall j :: i <= j < r.value ==> !OccursAt(s, pat, j)
    ensures r.None? ==> forall j :: i <= j ==> !OccursAt(s, pat, j)
    decreases |s| - i
  {
    if i + |pat| > |s| then None else if s[i..i + |pat|] == pat then Some(i) else FindFrom(s, pat, i + 1)
  }

  /** The first position at or after `i` that is not a space (`\s*`). */
  function SkipSpace(s: string, i: nat): (r: nat)
    requires i <= |s|
    ensures i <= r <= |s|
    ensures Blank(s[i..r])
    ensures r == |s| || !IsSpace(s[r])
    decreases |s| - i
  {
    if i < |s| && IsSpace(s[i]) then
      var r := SkipSpace(s, i + 1);
      assert s[i..r] == [s[i]] + s[i + 1..r];
      r
    else i
  }

  // ---------------------------------------------------------------------------
  // `_extract_sql`
  // ---------------------------------------------------------------------------

  const Fence: string := "```"

  /** The optional, case-insensitive `sql` tag after an opening fence. */
  function TagLength(c: string, i: nat): (n: nat)
    ensures n == 0 || (n == 3 && i + 3 <= |c|)
  {
    if i + 3 <= |c| && Lower(c[i..i + 3]) == "sql" then 3 else 0
  }

  /** The body of the first fenced block: after the first fence, its tag
      and the spaces that follow, up to the next fence. The pattern matches
      at the first fence or not at all, because the spaces and the tag hold
      no backtick. */
  function FirstBlock(c: string): Option<string>
  {
    match FindFrom(c, Fence, 0)
    case None => None
    case Some(p) =>
      var q := SkipSpace(c, p + 3 + TagLength(c, p + 3));
      match FindFrom(c, Fence, q)
      case None => None
      case Some(f) => Some(c[q..f])
  }

  const Prefixes: seq<string> := ["SQL:", "Query:", "Here is the SQL:", "Here's the SQL:"]

  /** Removes `prefix` once, ignoring case, and strips what is left. */
  function DropPrefix(s: string, prefix: string): (r: string)
    ensures |r| <= |s|
    ensures NoEdgeSpace(s) ==> NoEdgeSpace(r)
  {
    if StartsWith(Lower(s), Lower(prefix)) then Strip(s[|prefix|..]) else s
  }

  /** The prefixes in their fixed order, each removed at most once. */
  function DropPrefixes(s: string, ps: seq<string>): (r: string)
    ensures |r| <= |s|
    ensures NoEdgeSpace(s) ==> NoEdgeSpace(r)
  {
    if ps == [] then s else DropPrefixes(DropPrefix(s, ps[0]), ps[1..])
  }

  /** `_extract_sql` on a completion's content, which may be missing. */
  function SqlOf(content: Option<string>): string
  {
    match content
    case None => ""
    case Some(c) =>
      if c == "" then ""
      else
        match FirstBlock(c)
        case Some(body) => Strip(body)
        case None => DropPrefixes(Strip(c), Prefixes)
  }

  /** The result never starts or ends with a space, and missing or empty
      content gives the empty string. */
  lemma SqlOfStripped(content: Option<string>)
    ensures NoEdgeSpace(SqlOf(content))
    ensures content == None || content == Some("") ==> SqlOf(content) == ""
  {
  }

  /** `FindFrom` finds the first occurrence. */
  lemma FindFirst(s: string, pat: string, i: nat, f: nat)
    requires i <= f && OccursAt(s, pat, f)
    requires forall j :: i <= j < f ==> !OccursAt(s, pat, j)
    ensures FindFrom(s, pat, i) == Some(f)
  {
  }

  /** No closing fence starts in `[lo, hi)`. */
  predicate NoFenceIn(c: string, lo: nat, hi: nat)
  {
    forall j :: lo <= j < hi ==> !OccursAt(c, Fence, j)
  }

  /** The tag cannot swallow the closing fence: the tag holds no backtick. */
  lemma TagBeforeFence(c: string, p: nat, f: nat)
    requires p + 3 <= f && OccursAt(c, Fence, f)
    ensures p + 3 + TagLength(c, p + 3) <= f
  {
    assert c[f] == c[f..f + 3][0];
    if TagLength(c, p + 3) == 3 {
      TagHasNoBacktick(c[p + 3..p + 6]);
    }
  }

  lemma TagHasNoBacktick(t: string)
    requires Lower(t) == "sql"
    ensures forall k :: 0 <= k < |t| ==> t[k] != '`'
  {
  }

  /** The first block is found between the first fence and the next one. */
  lemma FirstBlockAt(c: string, p: nat, f: nat)
    requires OccursAt(c, Fence, p) && forall j :: 0 <= j < p ==> !OccursAt(c, Fence, j)
    requires p + 3 + TagLength(c, p + 3) <= f && OccursAt(c, Fence, f) && NoFenceIn(c, p + 3, f)
    ensures SkipSpace(c, p + 3 + TagLength(c, p + 3)) <= f
    ensures FirstBlock(c) == Some(c[SkipSpace(c, p + 3 + TagLength(c, p + 3))..f])
  {
    var start := p + 3 + TagLength(c, p + 3);
    FindFirst(c, Fence, 0, p);
    assert c[f] == Fence[0] by { assert c[f..f + 3][0] == c[f]; }
    SkipStopsAt(c, start, f);
    FindFirst(c, Fence, SkipSpace(c, start), f);
  }

  /** Skipping spaces stops at the latest at a position holding a backtick. */
  lemma {:induction false} SkipStopsAt(c: string, start: nat, f: nat)
    requires start <= f < |c| && c[f] == '`'
    ensures SkipSpace(c, start) <= f
    decreases f - start
  {
    if start < f && IsSpace(c[start]) {
      SkipStopsAt(c, start + 1, f);
    }
  }

  /** A reply whose first fence at `p` is closed by the next fence, at `f`,
      yields what lies between them with the tag dropped and stripped,
      whatever the body holds (backtick-quoted identifiers included). */
  lemma FencedBlock(c: string, p: nat, f: nat)
    requires OccursAt(c, Fence, p) && forall j :: 0 <= j < p ==> !OccursAt(c, Fence, j)
    requires p + 3 <= f && OccursAt(c, Fence, f) && NoFenceIn(c, p + 3, f)
    ensures p + 3 + TagLength(c, p + 3) <= f
    ensures SqlOf(Some(c)) == Strip(c[p + 3 + TagLength(c, p + 3)..f])
  {
    TagBeforeFence(c, p, f);
    var start := p + 3 + TagLength(c, p + 3);
    FirstBlockAt(c, p, f);
    var q := SkipSpace(c, start);
    SqlOfBlock(c, c[q..f]);
    StripSkipped(c, start, f);
  }

  /** Stripping the block makes the skipped leading spaces irrelevant. */
  lemma StripSkipped(c: string, start: nat, f: nat)
    requires start <= f <= |c| && SkipSpace(c, start) <= f
    ensures Strip(c[SkipSpace(c, start)..f]) == Strip(c[start..f])
  {
    var q := SkipSpace(c, start);
    assert c[start..f][..q - start] == c[start..q];
    assert c[start..f][q - start..] == c[q..f];
    StripDropBlank(c[start..f], q - start);
  }

  /** A reply with a fenced block yields that block, stripped. */
  lemma SqlOfBlock(c: string, body: string)
    requires FirstBlock(c) == Some(body)
    ensures SqlOf(Some(c)) == Strip(body)
  {
  }

  /** With none of the prefixes at its head, a string is kept as it is. */
  lemma {:induction false} DropNone(s: string, ps: seq<string>)
    requires forall i :: 0 <= i < |ps| ==> !StartsWith(Lower(s), Lower(ps[i]))
    ensures DropPrefixes(s, ps) == s
  {
    if ps != [] {
      DropNone(s, ps[1..]);
    }
  }

  /** A string that starts with the first prefix loses it, and what is left
      is stripped, when it starts with none of the later ones. */
  lemma DropFirst(s: string, ps: seq<string>)
    requires ps != [] && StartsWith(Lower(s), Lower(ps[0]))
    requires forall i :: 1 <= i < |ps| ==> !StartsWith(Lower(Strip(s[|ps[0]|..])), Lower(ps[i]))
    ensures DropPrefixes(s, ps) == Strip(s[|ps[0]|..])
  {
    DropNone(Strip(s[|ps[0]|..]), ps[1..]);
  }

  /** Without a fence, a reply that starts with none of the prefixes is
      returned stripped. */
  lemma PlainReply(c: string)
    requires c != "" && FindFrom(c, Fence, 0).None?
    requires forall i :: 0 <= i < |Prefixes| ==> !StartsWith(Lower(Strip(c)), Lower(Prefixes[i]))
    ensures SqlOf(Some(c)) == Strip(c)
  {
    SqlOfUnfenced(c);
    DropNone(Strip(c), Prefixes);
  }

  /** Without a fence the prefixes are removed from the stripped reply. */
  lemma SqlOfUnfenced(c: string)
    requires c != "" && FindFrom(c, Fence, 0).None?
    ensures SqlOf(Some(c)) == DropPrefixes(Strip(c), Prefixes)
  {
  }

  /** Without a fence, a reply that starts with `SQL:` in any case loses
      it, when what follows starts with none of the later prefixes. */
  lemma LabelledReply(c: string)
    requires c != "" && FindFrom(c, Fence, 0).None?
    requires StartsWith(Lower(Strip(c)), "sql:")
    requires forall i :: 1 <= i < |Prefixes| ==> !StartsWith(Lower(Strip(Strip(c)[4..])), Lower(Prefixes[i]))
    ensures SqlOf(Some(c)) == Strip(Strip(c)[4..])
  {
    SqlOfUnfenced(c);
    FirstPrefix();
    DropFirst(Strip(c), Prefixes);
  }

  /** The first prefix is `SQL:`, four characters, `sql:` in lower case. */
  lemma FirstPrefix()
    ensures |Prefixes[0]| == 4 && Lower(Prefixes[0]) == "sql:"
  {
    assert Lower(Prefixes[0]) == "sql:" by {
      assert Prefixes[0] == "SQL:";
    }
  }

  /** One turn of the prefix loop is one step of `DropPrefixes`. */
  lemma DropPrefixesStep(s: string, before: string, after: string, ps: seq<string>, i: nat)
    requires i < |ps| && DropPrefixes(before, ps[i..]) == DropPrefixes(s, ps)
    requires after == DropPrefix(before, ps[i])
    ensures DropPrefixes(after, ps[i + 1..]) == DropPrefixes(s, ps)
  {
    assert ps[i..][1..] == ps[i + 1..];
  }

  /** One turn of the prefix loop: the prefix is cut off, ignoring case,
      and the rest stripped, or the text is left as it is. */
  method DropOnePrefix(sql: string, prefix: string) returns (r: string)
    ensures r == DropPrefix(sql, prefix)
  {
    r := sql;
    if StartsWith(Lower(sql), Lower(prefix)) {
      r := Strip(sql[|prefix|..]);
    }
  }

  /** The prefix loop of `_extract_sql`: each prefix of `ps`, in order, is
      removed at most once. */
  method DropPrefixLoop(s: string, ps: seq<string>) returns (sql: string)
    ensures sql == DropPrefixes(s, ps)
  {
    sql := s;
    assert ps[0..] == ps;
    var i := 0;
    while i < |ps|
      invariant 0 <= i <= |ps|
      invariant DropPrefixes(sql, ps[i..]) == DropPrefixes(s, ps)
    {
      var next := DropOnePrefix(sql, ps[i]);
      DropPrefixesStep(s, sql, next, ps, i);
      sql := next;
      i := i + 1;
    }
    assert ps[i..] == [];
  }

  /** `_extract_sql`: the first fenced block if there is one, else the
      stripped reply with its prefixes removed. */
  method ExtractSql(content: Option<string>) returns (sql: string)
    ensures sql == SqlOf(content)
  {
    if content.None? || content.value == "" {
      return "";
    }
    var c := content.value;
    var block := FirstBlock(c);
    if block.Some? {
      return Strip(block.value);
    }
    sql := DropPrefixLoop(Strip(c), Prefixes);
  }

  // ---------------------------------------------------------------------------
  // `generate_with_retry`
  // ---------------------------------------------------------------------------

  /** The chat completion call: the content of the reply (possibly
      missing), or the error it raised. The attempt number stands for the
      state of the remote service. */
  type Completion = (seq<Message>, nat) -> Result<Option<string>, string>

  /** `generate`: one completion, then the SQL read out of it. */
  function Generate(complete: Completion, messages: seq<Message>, attempt: nat): Result<string, string>
  {
    match complete(messages, attempt)
    case Ok(content) => Ok(SqlOf(content))
    case Err(e) => Err(e)
  }

  /** A generator: the SQL for the messages on a given attempt, or an error. */
  type Generator = (seq<Message>, nat) -> Result<string, string>

  function GenerateOf(complete: Completion): Generator
  {
    (messages: seq<Message>, attempt: nat) => Generate(complete, messages, attempt)
  }

  function RetryMessage(feedback: string): Message
  {
    Message("user", "The previous SQL had an error: " + feedback + "\nPlease fix it.")
  }

  /** The messages sent on attempt `k`: one retry message more per earlier
      attempt when there is feedback, since the list keeps growing. */
  function AttemptMessages(messages: seq<Message>, feedback: Option<string>, k: nat): (r: seq<Message>)
    ensures |r| >= |messages| && r[..|messages|] == messages
  {
    if k == 0 || feedback.None? || feedback.value == "" then messages
    else AttemptMessages(messages, feedback, k - 1) + [RetryMessage(feedback.value)]
  }

  lemma {:induction false} AttemptMessagesShape(messages: seq<Message>, feedback: Option<string>, k: nat)
    ensures feedback.Some? && feedback.value != "" ==>
              |AttemptMessages(messages, feedback, k)| == |messages| + k &&
              forall i :: |messages| <= i < |messages| + k ==> AttemptMessages(messages, feedback, k)[i] == RetryMessage(feedback.value)
    ensures feedback.None? || feedback.value == "" ==> AttemptMessages(messages, feedback, k) == messages
  {
    if k > 0 {
      AttemptMessagesShape(messages, feedback, k - 1);
    }
  }

  /** What the caller sees: the SQL, the error of the last attempt, or
      `raise None` when no attempt was made. */
  datatype Outcome = Generated(sql: string) | Raised(error: string) | NoAttempt

  /** Attempt `k` of the loop. */
  function Try(generate: Generator, messages: seq<Message>, feedback: Option<string>, k: nat): Result<string, string>
  {
    generate(AttemptMessages(messages, feedback, k), k)
  }

  /** The outcome of the first `n` attempts: the first success, otherwise
      the last error. */
  function Attempts(generate: Generator, messages: seq<Message>, feedback: Option<string>, n: nat): (r: Outcome)
    ensures n == 0 <==> r == NoAttempt
  {
    if n == 0 then NoAttempt
    else
      var before := Attempts(generate, messages, feedback, n - 1);
      if before.Generated? then before
      else
        match Try(generate, messages, feedback, n - 1)
        case Ok(sql) => Generated(sql)
        case Err(e) => Raised(e)
  }

  /** The outcome is a success exactly when some attempt succeeds, and then
      it is the first success; otherwise it is the error of the last
      attempt. */
  lemma {:induction false} AttemptsChar(generate: Generator, messages: seq<Message>, feedback: Option<string>, n: nat)
    ensures Attempts(generate, messages, feedback, n).Generated? <==>
              exists k :: 0 <= k < n && Try(generate, messages, feedback, k).Ok?
    ensures Attempts(generate, messages, feedback, n).Generated? ==>
              exists k :: 0 <= k < n && Try(generate, messages, feedback, k) == Ok(Attempts(generate, messages, feedback, n).sql) &&
                forall j :: 0 <= j < k ==> Try(generate, messages, feedback, j).Err?
    ensures Attempts(generate, messages, feedback, n).Raised? ==>
              n > 0 && Try(generate, messages, feedback, n - 1) == Err(Attempts(generate, messages, feedback, n).error)
  {
    if n > 0 {
      AttemptsChar(generate, messages, feedback, n - 1);
      var before := Attempts(generate, messages, feedback, n - 1);
      if !before.Generated? {
        var g := Try(generate, messages, feedback, n - 1);
        assert forall j :: 0 <= j < n - 1 ==> Try(generate, messages, feedback, j).Err?;
        if g.Ok? {
          assert Try(generate, messages, feedback, n - 1) == Ok(Attempts(generate, messages, feedback, n).sql);
        }
      }
    }
  }

  /** Once an attempt has succeeded, later attempts change nothing. */
  lemma {:induction false} AttemptsDone(generate: Generator, messages: seq<Message>, feedback: Option<string>, k: nat, n: nat)
    requires k <= n && Attempts(generate, messages, feedback, k).Generated?
    ensures Attempts(generate, messages, feedback, n) == Attempts(generate, messages, feedback, k)
    decreases n - k
  {
    if k < n {
      AttemptsDone(generate, messages, feedback, k, n - 1);
    }
  }

  /** `generate_with_retry`: `max_retries + 1` attempts (none when that is
      not positive), returning the first success or raising the last
      error. */
  method GenerateWithRetry(generate: Generator, messages: seq<Message>, maxRetries: int, feedback: Option<string>)
    returns (r: Outcome)
    ensures r == Attempts(generate, messages, feedback, if maxRetries + 1 > 0 then maxRetries + 1 else 0)
  {
    var n: nat := if maxRetries + 1 > 0 then maxRetries + 1 else 0;
    var current := messages;
    r := NoAttempt;
    var attempt := 0;
    while attempt < n
      invariant 0 <= attempt <= n
      invariant r == Attempts(generate, messages, feedback, attempt) && !r.Generated?
      invariant current == AttemptMessages(messages, feedback, if attempt == 0 then 0 else attempt - 1)
    {
      if attempt > 0 && feedback.Some? && feedback.value != "" {
        current := current + [RetryMessage(feedback.value)];
      }
      assert current == AttemptMessages(messages, feedback, attempt);
      var g := generate(current, attempt);
      match g {
        case Ok(sql) =>
          r := Generated(sql);
          AttemptsDone(generate, messages, feedback, attempt + 1, n);
          return;
        case Err(e) =>
          r := Raised(e);
      }
      attempt := attempt + 1;
    }
  }

  /** The retry loop around the chat client: each attempt reads the SQL
      out of the completion. */
  method GenerateSql(complete: Completion, messages: seq<Message>, maxRetries: int, feedback: Option<string>)
    returns (r: Outcome)
    ensures r == Attempts(GenerateOf(complete), messages, feedback, if maxRetries + 1 > 0 then maxRetries + 1 else 0)
    ensures r.Generated? ==> NoEdgeSpace(r.sql)
  {
    r := GenerateWithRetry(GenerateOf(complete), messages, maxRetries, feedback);
    if r.Generated? && maxRetries + 1 > 0 {
      var n: nat := maxRetries + 1;
      AttemptsChar(GenerateOf(complete), messages, feedback, n);
      var k :| 0 <= k < n && Try(GenerateOf(complete), messages, feedback, k) == Ok(r.sql);
      match complete(AttemptMessages(messages, feedback, k), k) {
        case Ok(content) => SqlOfStripped(content);
        case Err(_) =>
      }
    }
  }
}
