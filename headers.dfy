/**
 * Request headers and the two helpers of the CGI gateway that rewrite header
 * names into a dictionary: `normalize_http_headers` (lower-cased names) and
 * `append_http_headers` (`HTTP_` + upper-case name with `-` turned into `_`).
 *
 * The request's headers are a sequence of (name, value) pairs in arrival
 * order. Indexing the header multidict by a name gives the value of the FIRST
 * header whose name matches case-insensitively, whatever case the name is
 * given in.
 */
module Headers {
  import opened Wrappers
  import opened Text

  /** One request header as received: (name, value). */
  type Header = (string, string)

  /** `headers[name]` on the request's case-insensitive multidict: the first matching header's value. */
  function Lookup(headers: seq<Header>, name: string): Option<string> {
    if headers == [] then None
    else if Lower(headers[0].0) == Lower(name) then Some(headers[0].1)
    else Lookup(headers[1..], name)
  }

  /**
   * A lookup finds a value exactly when some header's name matches, and then
   * it is the value of the first header whose name matches.
   */
  lemma {:induction false} LookupFirstMatch(headers: seq<Header>, name: string)
    ensures Lookup(headers, name).Some? <==> exists i :: 0 <= i < |headers| && Lower(headers[i].0) == Lower(name)
    ensures Lookup(headers, name).Some? ==>
      exists i :: 0 <= i < |headers| && Lower(headers[i].0) == Lower(name) &&
        Lookup(headers, name).value == headers[i].1 &&
        (forall j :: 0 <= j < i ==> Lower(headers[j].0) != Lower(name))
  {
    if headers != [] && Lower(headers[0].0) != Lower(name) {
      LookupFirstMatch(headers[1..], name);
      assert forall i :: 1 <= i < |headers| ==> headers[i] == headers[1..][i - 1];
      if Lookup(headers, name).Some? {
        var i :| 0 <= i < |headers[1..]| && Lower(headers[1..][i].0) == Lower(name) &&
          Lookup(headers, name).value == headers[1..][i].1 &&
          (forall j :: 0 <= j < i ==> Lower(headers[1..][j].0) != Lower(name));
        assert Lower(headers[i + 1].0) == Lower(name);
      }
    }
  }

  /** Looking up the name of a header that is present always finds a value. */
  lemma LookupPresent(headers: seq<Header>, i: nat)
    requires i < |headers|
    ensures Lookup(headers, headers[i].0).Some?
  {
    LookupFirstMatch(headers, headers[i].0);
  }

  /** Names that differ only in letter case look up the same header. */
  lemma LookupIgnoresCase(headers: seq<Header>, a: string, b: string)
    requires Lower(a) == Lower(b)
    ensures Lookup(headers, a) == Lookup(headers, b)
  {
  }

  /** The value `normalize_http_headers` leaves under a lower-case name, `''` when absent. */
  function HeaderOr(headers: seq<Header>, name: string): string {
    Lookup(headers, name).GetOr("")
  }

  /**
   * `normalize_http_headers`: a fresh dictionary that maps the lower-cased
   * name of every header to the value of the first header of that name.
   */
  method NormalizeHttpHeaders(headers: seq<Header>) returns (normalized: map<string, string>)
    ensures forall i :: 0 <= i < |headers| ==> Lower(headers[i].0) in normalized
    ensures forall name :: name in normalized ==>
      IsLowerCase(name) && Lookup(headers, name) == Some(normalized[name])
  {
    normalized := map[];
    var i := 0;
    while i < |headers|
      invariant 0 <= i <= |headers|
      invariant forall k :: 0 <= k < i ==> Lower(headers[k].0) in normalized
      invariant forall name :: name in normalized ==>
        IsLowerCase(name) && Lookup(headers, name) == Some(normalized[name])
    {
      var key := headers[i].0;
      LowerIsLowerCase(key);
      LookupPresent(headers, i);
      LookupIgnoresCase(headers, key, Lower(key));
      normalized := normalized[Lower(key) := Lookup(headers, key).value];
      i := i + 1;
    }
  }

  /** The normalized dictionary has exactly the lower-cased header names, each with its header's value. */
  lemma NormalizedLookup(headers: seq<Header>, normalized: map<string, string>, name: string)
    requires forall i :: 0 <= i < |headers| ==> Lower(headers[i].0) in normalized
    requires forall n :: n in normalized ==> IsLowerCase(n) && Lookup(headers, n) == Some(normalized[n])
    requires IsLowerCase(name)
    ensures (if name in normalized then normalized[name] else "") == HeaderOr(headers, name)
  {
    LowerOfLowerCase(name);
    LookupFirstMatch(headers, name);
  }

  /** The CGI variable a header is exposed under: `"HTTP_" + upper(name)` with `-` replaced by `_`. */
  function HttpName(name: string): string {
    "HTTP_" + Underscored(Upper(name))
  }

  /** Whether `name` has the `HTTP_` prefix that every header variable carries. */
  predicate HasHttpPrefix(name: string) {
    |name| >= 5 && name[0] == 'H' && name[1] == 'T' && name[2] == 'T' && name[3] == 'P' && name[4] == '_'
  }

  lemma HttpNameHasPrefix(name: string)
    ensures HasHttpPrefix(HttpName(name))
  {
  }

  /**
   * The dictionary after the first `n` header names were written into `env`
   * in arrival order, each as `HttpName(name) := headers[name]`.
   */
  function WithHttpVars(env: map<string, string>, headers: seq<Header>, n: nat): map<string, string>
    requires n <= |headers|
  {
    if n == 0 then env
    else
      LookupPresent(headers, n - 1);
      WithHttpVars(env, headers, n - 1)[HttpName(headers[n - 1].0) := Lookup(headers, headers[n - 1].0).value]
  }

  /**
   * The server process's own environment (the C `environ`): what `putenv`
   * writes, and what a child spawned without an explicit environment inherits.
   * Python's `os.environ` mapping is read once at start-up and does not see
   * these writes.
   */
  class ProcessEnvironment {
    var vars: map<string, string>

    constructor (startup: map<string, string>)
      ensures vars == startup
    {
      vars := startup;
    }
  }

  /**
   * `copy.deepcopy(os.environ)`: an `os._Environ` with its own copy of the
   * variables. Its item assignment calls `putenv` before storing the entry,
   * so every write also lands in the process environment.
   */
  class EnvDict {
    var vars: map<string, string>
    const process: ProcessEnvironment

    /** The copy of `os.environ` (`environ`), writing through to `process`. */
    constructor Copy(environ: map<string, string>, process: ProcessEnvironment)
      ensures vars == environ && this.process == process
    {
      vars := environ;
      this.process := process;
    }

    /** `env[key] = value`: `putenv(key, value)`, then the dictionary entry. */
    method Set(key: string, value: string)
      modifies this, process
      ensures vars == old(vars)[key := value]
      ensures process.vars == old(process.vars)[key := value]
    {
      process.vars := process.vars[key := value];
      vars := vars[key := value];
    }
  }

  /**
   * `append_http_headers`: writes every header into `env` under its `HTTP_`
   * name and returns the same dictionary object. Each write also reaches the
   * process environment.
   */
  method AppendHttpHeaders(env: EnvDict, headers: seq<Header>) returns (result: EnvDict)
    modifies env, env.process
    ensures result == env
    ensures env.vars == WithHttpVars(old(env.vars), headers, |headers|)
    ensures env.process.vars == WithHttpVars(old(env.process.vars), headers, |headers|)
  {
    var i := 0;
    while i < |headers|
      invariant 0 <= i <= |headers|
      invariant env.vars == WithHttpVars(old(env.vars), headers, i)
      invariant env.process.vars == WithHttpVars(old(env.process.vars), headers, i)
    {
      var key := headers[i].0;
      LookupPresent(headers, i);
      env.Set(HttpName(key), Lookup(headers, key).value);
      i := i + 1;
    }
    result := env;
  }

  /** A variable no header is written to keeps its presence and its value. */
  lemma {:induction false} HttpVarsKeepUnwritten(env: map<string, string>, headers: seq<Header>, n: nat, name: string)
    requires n <= |headers|
    requires forall i :: 0 <= i < n ==> HttpName(headers[i].0) != name
    ensures name in WithHttpVars(env, headers, n) <==> name in env
    ensures name in env ==> WithHttpVars(env, headers, n)[name] == env[name]
  {
    if n > 0 {
      HttpVarsKeepUnwritten(env, headers, n - 1, name);
    }
  }

  /** Variables without the `HTTP_` prefix are left exactly as they were. */
  lemma HttpVarsKeepOthers(env: map<string, string>, headers: seq<Header>, n: nat, name: string)
    requires n <= |headers|
    requires !HasHttpPrefix(name)
    ensures name in WithHttpVars(env, headers, n) <==> name in env
    ensures name in env ==> WithHttpVars(env, headers, n)[name] == env[name]
  {
    forall i | 0 <= i < n
      ensures HttpName(headers[i].0) != name
    {
      HttpNameHasPrefix(headers[i].0);
    }
    HttpVarsKeepUnwritten(env, headers, n, name);
  }

  /**
   * Every header name is present; its value is that of the LAST header (in
   * arrival order) with the same `HTTP_` name, looked up case-insensitively.
   */
  lemma {:induction false} HttpVarsLastWins(env: map<string, string>, headers: seq<Header>, n: nat, j: nat)
    requires j < n <= |headers|
    requires forall k :: j < k < n ==> HttpName(headers[k].0) != HttpName(headers[j].0)
    ensures HttpName(headers[j].0) in WithHttpVars(env, headers, n)
    ensures Some(WithHttpVars(env, headers, n)[HttpName(headers[j].0)]) == Lookup(headers, headers[j].0)
  {
    LookupPresent(headers, j);
    if j < n - 1 {
      HttpVarsLastWins(env, headers, n - 1, j);
    }
  }

  /**
   * When no header of another (case-insensitive) name shares its `HTTP_` name,
   * the variable of header `i` holds `headers[name]`. Without that condition the
   * claim fails: `X-Id` and `X_Id` are both written to `HTTP_X_ID`, and the
   * later one wins.
   */
  lemma HttpVarsOfHeader(env: map<string, string>, headers: seq<Header>, i: nat)
    requires i < |headers|
    requires forall k :: 0 <= k < |headers| && HttpName(headers[k].0) == HttpName(headers[i].0) ==>
      Lower(headers[k].0) == Lower(headers[i].0)
    ensures HttpName(headers[i].0) in WithHttpVars(env, headers, |headers|)
    ensures Some(WithHttpVars(env, headers, |headers|)[HttpName(headers[i].0)]) == Lookup(headers, headers[i].0)
  {
    var last := LastWithName(headers, HttpName(headers[i].0), i);
    HttpVarsLastWins(env, headers, |headers|, last);
    LookupIgnoresCase(headers, headers[last].0, headers[i].0);
  }

  /** The index of the last header whose `HTTP_` name is `name`, given one at `i`. */
  lemma LastWithName(headers: seq<Header>, name: string, i: nat) returns (last: nat)
    requires i < |headers| && HttpName(headers[i].0) == name
    ensures i <= last < |headers| && HttpName(headers[last].0) == name
    ensures forall k :: last < k < |headers| ==> HttpName(headers[k].0) != name
    decreases |headers| - i
  {
    if exists k :: i < k < |headers| && HttpName(headers[k].0) == name {
      var k :| i < k < |headers| && HttpName(headers[k].0) == name;
      last := LastWithName(headers, name, k);
    } else {
      last := i;
    }
  }

  /** The collision named above, on concrete headers. */
  lemma HttpNameCollision()
    ensures HttpName("X-Id") == HttpName("x_id") == "HTTP_X_ID"
    ensures Lower("X-Id") != Lower("x_id")
  {
    assert Lower("X-Id")[1] == '-';
    assert Lower("x_id")[1] == '_';
  }
}
