/**
 * config/validateEnv.js: at startup, every required environment variable must be set
 * to a non-empty value; otherwise each missing name is reported and the process exits
 * with code 1. The console lines are returned instead of printed.
 */
module ValidateEnv {
  const RequiredVars: seq<string> := [
    "PORT",
    "MONGO_URI",
    "JWT_SECRET",
    "CLOUDINARY_CLOUD_NAME",
    "CLOUDINARY_API_KEY",
    "CLOUDINARY_API_SECRET",
    "GOOGLE_API_KEY"]

  type Env = map<string, string>

  /** `!process.env[key]`: unset or empty. */
  predicate IsUnset(env: Env, key: string) {
    key !in env || env[key] == ""
  }

  /** `a` can be obtained from `b` by deleting elements. */
  predicate IsSubsequence(a: seq<string>, b: seq<string>)
    decreases |b|
  {
    if |a| == 0 then true
    else if |b| == 0 then false
    else (a[0] == b[0] && IsSubsequence(a[1..], b[1..])) || IsSubsequence(a, b[1..])
  }

  /** `names.filter((key) => !process.env[key])` */
  function MissingFrom(names: seq<string>, env: Env): (m: seq<string>)
    ensures forall x :: x in m <==> x in names && IsUnset(env, x)
    ensures IsSubsequence(m, names)
  {
    if |names| == 0 then []
    else
      var rest := MissingFrom(names[1..], env);
      if IsUnset(env, names[0]) then [names[0]] + rest
      else
        SubsequenceOfTail(rest, names);
        rest
  }

  /** A subsequence of the tail is a subsequence of the whole. */
  lemma SubsequenceOfTail(a: seq<string>, b: seq<string>)
    requires |b| > 0 && IsSubsequence(a, b[1..])
    ensures IsSubsequence(a, b)
  {
  }

  function Missing(env: Env): (m: seq<string>)
    ensures forall x :: x in m <==> x in RequiredVars && IsUnset(env, x)
    ensures IsSubsequence(m, RequiredVars)
  {
    MissingFrom(RequiredVars, env)
  }

  /** Returning normally, or the console lines written before `process.exit(code)`. */
  datatype Outcome = Proceed | Exit(code: int, lines: seq<string>)

  const HeaderLine := "Missing required environment variables:"
  const FooterLine := "\nPlease add them to your .env file and restart."

  /** `validateEnv()` */
  function ValidateEnv(env: Env): (o: Outcome)
    ensures o.Proceed? <==> forall x :: x in RequiredVars ==> !IsUnset(env, x)
    ensures o.Exit? ==>
      && o.code == 1
      && |o.lines| == |Missing(env)| + 2
      && o.lines[0] == HeaderLine && o.lines[|o.lines| - 1] == FooterLine
      && forall i :: 0 <= i < |Missing(env)| ==> o.lines[i + 1] == "   - " + Missing(env)[i]
  {
    var missing := Missing(env);
    if |missing| == 0 then Proceed
    else
      assert missing[0] in missing;
      Exit(1, ReportLines(missing))
  }

  /** The header, one `   - name` line per missing name, and the footer. */
  function ReportLines(missing: seq<string>): (lines: seq<string>)
    ensures |lines| == |missing| + 2
    ensures lines[0] == HeaderLine && lines[|lines| - 1] == FooterLine
    ensures forall i :: 0 <= i < |missing| ==> lines[i + 1] == "   - " + missing[i]
  {
    [HeaderLine] + seq(|missing|, i requires 0 <= i < |missing| => "   - " + missing[i]) + [FooterLine]
  }

  /** Missing names keep the order of the required list. */
  lemma {:induction false} MissingFromAppend(a: seq<string>, b: seq<string>, env: Env)
    ensures MissingFrom(a + b, env) == MissingFrom(a, env) + MissingFrom(b, env)
  {
    if |a| == 0 {
      assert a + b == b;
    } else {
      assert (a + b)[1..] == a[1..] + b;
      MissingFromAppend(a[1..], b, env);
    }
  }
}
