/**
 * The domain classifier (chrome/productivity_analyzer.py, and its copy in
 * combined.py): a one-time set-up that finds an API key, the normalisation of
 * the model's answer to "productive" or "unproductive", and the tally of the
 * labels of all tracked domains. The generative model itself is an oracle.
 */
module Productivity {
  import opened Wrappers
  import opened Text

  const Productive: string := "productive"
  const Unproductive: string := "unproductive"

  /** `response.text.strip().lower()`. */
  function Normalise(text: string): (r: string)
    ensures NoUpper(r)
    ensures r == [] || (!IsPySpace(r[0]) && !IsPySpace(r[|r| - 1]))
  {
    var t := Trim(text, PySpaces);
    LowerKeepsEnds(t);
    Lower(t)
  }

  /** Lower-casing leaves white space at either end where it was. */
  lemma LowerKeepsEnds(t: string)
    ensures t != [] ==> IsPySpace(Lower(t)[0]) == IsPySpace(t[0])
    ensures t != [] ==> IsPySpace(Lower(t)[|t| - 1]) == IsPySpace(t[|t| - 1])
  {
    if t != [] {
      LowerKeepsSpace(t[0]);
      LowerKeepsSpace(t[|t| - 1]);
    }
  }

  /** Lower-casing neither creates nor removes white space. */
  lemma LowerKeepsSpace(c: char)
    ensures IsPySpace(LowerChar(c)) == IsPySpace(c)
  {
    if IsUpper(c) {
      assert 'a' <= LowerChar(c) <= 'z';
    }
  }

  /** Normalising twice is normalising once. */
  lemma NormaliseIdempotent(text: string)
    ensures Normalise(Normalise(text)) == Normalise(text)
  {
    var r := Normalise(text);
    TrimRemovesSpace(r, PySpaces);
    LowerFixpoint(r);
  }

  /**
   * The answer check: the normalised text is kept only when it is exactly one
   * of the two labels; anything else becomes "productive".
   */
  function Classify(text: string): (verdict: string)
    ensures verdict == Productive || verdict == Unproductive
    ensures verdict == Normalise(text) <==> Normalise(text) == Productive || Normalise(text) == Unproductive
    ensures verdict == Unproductive <==> Normalise(text) == Unproductive
  {
    var r := Normalise(text);
    if r == Productive || r == Unproductive then r else Productive
  }

  /**
   * A label padded with white space, in any case, is read as that label —
   * in particular each label is a fixed point of the check.
   */
  lemma ClassifyPadded(verdict: string, upper: string, pre: string, post: string)
    requires verdict == Productive || verdict == Unproductive
    requires Lower(upper) == verdict
    requires forall i :: 0 <= i < |pre| ==> IsPySpace(pre[i])
    requires forall i :: 0 <= i < |post| ==> IsPySpace(post[i])
    ensures Classify(pre + upper + post) == verdict
  {
    assert upper[0] == verdict[0] || IsUpper(upper[0]);
    assert LowerChar(upper[|upper| - 1]) == verdict[|verdict| - 1];
    TrimPadded(pre, upper, post, PySpaces);
  }

  /** What the model call produced: the response text, or an exception. */
  datatype Reply = Text(text: string) | Raised

  /**
   * What `setup_analyzer` finds: the `GEMINI_API_KEY` variable, the
   * `.api_key` file (None when it does not exist), and whether
   * `genai.configure` raises.
   */
  datatype Environment = Environment(envKey: Option<string>, keyFile: Option<string>, configureRaises: bool)

  /** The key `setup_analyzer` hands to `genai.configure`, if it finds one. */
  function ApiKey(env: Environment): (key: Option<string>)
    ensures key.None? <==> (env.envKey.None? || env.envKey.value == "") && env.keyFile.None?
  {
    if env.envKey.Some? && env.envKey.value != "" then env.envKey
    else if env.keyFile.Some? then Some(Trim(env.keyFile.value, PySpaces))
    else None
  }

  /** The return value of `setup_analyzer`. */
  function SetupSucceeds(env: Environment): (ok: bool)
    ensures ok <==> ApiKey(env).Some? && !env.configureRaises
  {
    ApiKey(env).Some? && !env.configureRaises
  }

  /**
   * The label `analyze_productivity` returns, given whether the analyzer was
   * already enabled: "productive" without a model call when set-up fails,
   * otherwise the checked answer, "productive" when the call raises.
   */
  function Decide(enabled: bool, env: Environment, reply: Reply): (verdict: string)
    ensures verdict == Productive || verdict == Unproductive
    ensures !enabled && !SetupSucceeds(env) ==> verdict == Productive
    ensures verdict == Unproductive <==>
      (enabled || SetupSucceeds(env)) && reply.Text? && Normalise(reply.text) == Unproductive
  {
    if !enabled && !SetupSucceeds(env) then Productive
    else match reply
      case Raised => Productive
      case Text(t) => Classify(t)
  }

  /** Once set-up has been tried, the decision no longer depends on the earlier flag. */
  lemma DecideAfterSetup(enabled: bool, env: Environment, reply: Reply)
    ensures Decide(enabled || SetupSucceeds(env), env, reply) == Decide(enabled, env, reply)
  {
  }

  /**
   * The flag a loop over the domains sees is the starting one, or the one
   * set-up left; either way the decision is the one taken from the start.
   */
  lemma DecideFromStart(enabled0: bool, before: bool, env: Environment, reply: Reply)
    requires before == enabled0 || before == (enabled0 || SetupSucceeds(env))
    ensures Decide(before, env, reply) == Decide(enabled0, env, reply)
  {
    DecideAfterSetup(enabled0, env, reply);
  }

  /** `results[verdict] += 1` on the two-label tally. */
  function Bump(results: map<string, nat>, verdict: string): (r: map<string, nat>)
    requires results.Keys == {Productive, Unproductive}
    requires verdict == Productive || verdict == Unproductive
    ensures r.Keys == {Productive, Unproductive}
    ensures r[Productive] + r[Unproductive] == results[Productive] + results[Unproductive] + 1
    ensures r[Unproductive] == results[Unproductive] + if verdict == Unproductive then 1 else 0
  {
    results[verdict := results[verdict] + 1]
  }

  /** The module global `_analyzer_enabled` and the functions that use it. */
  class Analyzer {
    var enabled: bool

    /** The flag as the module defines it. */
    constructor ()
      ensures !enabled
    {
      enabled := false;
    }

    /** chrome/productivity_analyzer.py also runs `setup_analyzer()` on import. */
    constructor OnImport(env: Environment)
      ensures enabled == SetupSucceeds(env)
    {
      enabled := SetupSucceeds(env);
    }

    /** `setup_analyzer`. */
    method Setup(env: Environment) returns (ok: bool)
      modifies this
      ensures ok == SetupSucceeds(env) && enabled == ok
    {
      var key := ApiKey(env);
      if key.None? {
        enabled := false;
        return false;
      }
      if env.configureRaises {
        enabled := false;
        return false;
      }
      enabled := true;
      ok := true;
    }

    /**
     * `analyze_productivity(domain)`; `answer` is the model's behaviour on the
     * prompt for each domain. `askedModel` says whether the model was called.
     */
    method Analyze(domain: string, env: Environment, answer: string -> Reply) returns (verdict: string, askedModel: bool)
      modifies this
      ensures askedModel == (old(enabled) || SetupSucceeds(env))
      ensures enabled == askedModel
      ensures verdict == Decide(old(enabled), env, answer(domain))
    {
      if !enabled {
        var ok := Setup(env);
        if !ok {
          return Productive, false;
        }
      }
      askedModel := true;
      var reply := answer(domain);
      match reply
      case Raised =>
        verdict := Productive;
      case Text(t) =>
        var result := Normalise(t);
        if result == Productive || result == Unproductive {
          verdict := result;
        } else {
          verdict := Productive;
        }
    }
  }

  /** The number of domains labelled "unproductive". */
  function CountUnproductive(enabled: bool, env: Environment, answer: string -> Reply, domains: seq<string>): (n: nat)
    ensures n <= |domains|
  {
    if domains == [] then 0
    else
      var last := domains[|domains| - 1];
      CountUnproductive(enabled, env, answer, domains[..|domains| - 1])
        + if Decide(enabled, env, answer(last)) == Unproductive then 1 else 0
  }

  lemma CountSnoc(enabled: bool, env: Environment, answer: string -> Reply, domains: seq<string>, i: nat)
    requires i < |domains|
    ensures CountUnproductive(enabled, env, answer, domains[..i + 1])
      == CountUnproductive(enabled, env, answer, domains[..i])
         + if Decide(enabled, env, answer(domains[i])) == Unproductive then 1 else 0
  {
    assert domains[..i + 1][..i] == domains[..i];
  }

  /** With set-up failing on a disabled analyzer, nothing is ever "unproductive". */
  lemma {:induction false} CountWithoutSetup(env: Environment, answer: string -> Reply, domains: seq<string>)
    requires !SetupSucceeds(env)
    ensures CountUnproductive(false, env, answer, domains) == 0
  {
    if domains != [] {
      CountWithoutSetup(env, answer, domains[..|domains| - 1]);
    }
  }

  /** The domains `main` goes through: the fetched history's keys, none when fetching failed. */
  function Fetched(fetched: Option<seq<string>>): seq<string>
  {
    if fetched.Some? then fetched.value else []
  }

  /**
   * `main`: labels every fetched domain and returns the counts in the order
   * [productive, unproductive]. `fetched` is None when the GET, the DELETE or
   * the status check raised.
   */
  method TallyDomains(an: Analyzer, fetched: Option<seq<string>>, env: Environment, answer: string -> Reply)
    returns (counts: seq<nat>)
    modifies an
    ensures |counts| == 2
    ensures counts[0] + counts[1] == |Fetched(fetched)|
    ensures counts[1] == CountUnproductive(old(an.enabled), env, answer, Fetched(fetched))
    ensures fetched.None? ==> counts == [0, 0]
    ensures an.enabled == (old(an.enabled) || (|Fetched(fetched)| > 0 && SetupSucceeds(env)))
  {
    var domains := Fetched(fetched);
    ghost var enabled0 := an.enabled;
    var results := map[Productive := 0, Unproductive := 0];
    for i := 0 to |domains|
      invariant results.Keys == {Productive, Unproductive}
      invariant results[Productive] + results[Unproductive] == i
      invariant results[Unproductive] == CountUnproductive(enabled0, env, answer, domains[..i])
      invariant an.enabled == (enabled0 || (i > 0 && SetupSucceeds(env)))
    {
      results := CountDomain(an, enabled0, domains, i, env, answer, results);
    }
    assert domains[..|domains|] == domains;
    counts := [results[Productive], results[Unproductive]];
  }

  /** One pass of `main`'s loop: label the `i`-th domain and count the label. */
  method CountDomain(an: Analyzer, ghost enabled0: bool, domains: seq<string>, i: nat, env: Environment,
                     answer: string -> Reply, results: map<string, nat>)
    returns (results': map<string, nat>)
    requires i < |domains|
    requires results.Keys == {Productive, Unproductive}
    requires results[Productive] + results[Unproductive] == i
    requires results[Unproductive] == CountUnproductive(enabled0, env, answer, domains[..i])
    requires an.enabled == (enabled0 || (i > 0 && SetupSucceeds(env)))
    modifies an
    ensures results'.Keys == {Productive, Unproductive}
    ensures results'[Productive] + results'[Unproductive] == i + 1
    ensures results'[Unproductive] == CountUnproductive(enabled0, env, answer, domains[..i + 1])
    ensures an.enabled == (enabled0 || SetupSucceeds(env))
  {
    ghost var before := an.enabled;
    var verdict, _ := an.Analyze(domains[i], env, answer);
    DecideFromStart(enabled0, before, env, answer(domains[i]));
    CountSnoc(enabled0, env, answer, domains, i);
    results' := Bump(results, verdict);
  }
}
