/** The git identity helpers: `git.name()` and `git.email()` ask git for the
    configured user name and e-mail and remember the answer per working
    directory; `clear()` forgets every remembered answer. The working
    directory, whether `git` is on the PATH, and what `git config` prints are
    parameters of each call. */
module User {
  import opened Js
  import opened Strings

  /** The command line run for the user name. */
  const NameCommand := "git config --get user.name"
  /** The command line run for the user e-mail. */
  const EmailCommand := "git config --get user.email"

  /** A remembered answer, keyed by working directory. */
  type Cache = map<string, string>

  /** `cache.get(cwd)`: the remembered answer, or `undefined`. */
  function Cached(cache: Cache, cwd: string): (v: Option<string>)
    ensures v.Some? <==> cwd in cache
    ensures v.Some? ==> v.value == cache[cwd]
  {
    if cwd in cache then Some(cache[cwd]) else None
  }

  /** `if (name)`: a cache entry is used only when it is truthy, so a
      remembered empty string counts as a miss. */
  predicate Hit(cache: Cache, cwd: string)
    ensures Hit(cache, cwd) <==> Cached(cache, cwd).Some? && Truthy(Str(Cached(cache, cwd).value))
  {
    cwd in cache && cache[cwd] != ""
  }

  /** One lookup: what it returns, the cache afterwards, and whether git was run. */
  datatype Lookup = Lookup(value: Option<string>, cache: Cache, executed: bool)

  /** A lookup for `cwd`, where `stdout` is what `git config` would print. On a
      hit the cache answers and git is not run. On a miss git is run exactly
      when it is on the PATH, and its trimmed output is returned and
      remembered for `cwd`, even when it is empty. Without git the (absent or
      empty) remembered answer is returned. Entries of other directories are
      never touched, and whatever is returned is what the cache then holds
      for `cwd`. */
  function LookupSpec(cache: Cache, cwd: string, gitOnPath: bool, stdout: string): (l: Lookup)
    ensures l.executed <==> !Hit(cache, cwd) && gitOnPath
    ensures !l.executed ==> l.cache == cache && l.value == Cached(cache, cwd)
    ensures l.executed ==> l.value == Some(Trim(stdout))
    ensures forall k :: k != cwd ==> (k in l.cache <==> k in cache)
    ensures forall k :: k != cwd && k in cache ==> l.cache[k] == cache[k]
    ensures cwd in l.cache <==> cwd in cache || l.executed
    ensures l.value == Cached(l.cache, cwd)
  {
    if Hit(cache, cwd) then Lookup(Some(cache[cwd]), cache, false)
    else if gitOnPath then
      var v := Trim(stdout);
      Lookup(Some(v), cache[cwd := v], true)
    else Lookup(Cached(cache, cwd), cache, false)
  }

  /** The two caches and the commands run so far. The caches are module-level
      maps in the source, shared by every caller. */
  class GitIdentity {
    var nameCache: Cache
    var emailCache: Cache
    /** Every command line passed to `shell.exec`, in order. */
    var execs: seq<string>

    constructor()
      ensures nameCache == map[] && emailCache == map[] && execs == []
    {
      nameCache := map[];
      emailCache := map[];
      execs := [];
    }

    /** `clear()`: forgets every remembered name and e-mail. */
    method Clear()
      modifies this
      ensures nameCache == map[] && emailCache == map[]
      ensures execs == old(execs)
    {
      nameCache := map[];
      emailCache := map[];
    }

    /** `shell.exec(command, {silent: true}).stdout`, where `stdout` is what
        the command prints. */
    method Exec(command: string, stdout: string) returns (out: string)
      modifies this
      ensures out == stdout
      ensures execs == old(execs) + [command]
      ensures nameCache == old(nameCache) && emailCache == old(emailCache)
    {
      execs := execs + [command];
      out := stdout;
    }

    /** `git.name()` run in `cwd`. */
    method Name(cwd: string, gitOnPath: bool, stdout: string) returns (name: Option<string>)
      modifies this
      ensures var l := LookupSpec(old(nameCache), cwd, gitOnPath, stdout);
              name == l.value && nameCache == l.cache
              && execs == old(execs) + (if l.executed then [NameCommand] else [])
      ensures emailCache == old(emailCache)
    {
      if cwd in nameCache && nameCache[cwd] != "" {
        return Some(nameCache[cwd]);
      }
      name := Cached(nameCache, cwd);
      if gitOnPath {
        var out := Exec(NameCommand, stdout);
        var v := Trim(out);
        nameCache := nameCache[cwd := v];
        name := Some(v);
      }
    }

    /** `git.email()` run in `cwd`. */
    method Email(cwd: string, gitOnPath: bool, stdout: string) returns (email: Option<string>)
      modifies this
      ensures var l := LookupSpec(old(emailCache), cwd, gitOnPath, stdout);
              email == l.value && emailCache == l.cache
              && execs == old(execs) + (if l.executed then [EmailCommand] else [])
      ensures nameCache == old(nameCache)
    {
      if cwd in emailCache && emailCache[cwd] != "" {
        return Some(emailCache[cwd]);
      }
      email := Cached(emailCache, cwd);
      if gitOnPath {
        var out := Exec(EmailCommand, stdout);
        var v := Trim(out);
        emailCache := emailCache[cwd := v];
        email := Some(v);
      }
    }
  }

  /** Repeated lookups in one directory, the i-th one seeing git print
      `outs[i]`: the cache afterwards and how many times git was run. */
  function Repeated(cache: Cache, cwd: string, gitOnPath: bool, outs: seq<string>): (Cache, nat)
    decreases |outs|
  {
    if outs == [] then (cache, 0)
    else
      var l := LookupSpec(cache, cwd, gitOnPath, outs[0]);
      var (c, n) := Repeated(l.cache, cwd, gitOnPath, outs[1..]);
      (c, n + if l.executed then 1 else 0)
  }

  /** Once the directory has a non-empty answer, further lookups never run git
      and leave the cache as it is. */
  lemma {:induction false} HitStaysHit(cache: Cache, cwd: string, gitOnPath: bool, outs: seq<string>)
    requires Hit(cache, cwd)
    ensures Repeated(cache, cwd, gitOnPath, outs) == (cache, 0)
    decreases |outs|
  {
    if outs != [] {
      HitStaysHit(cache, cwd, gitOnPath, outs[1..]);
    }
  }

  /** The value is cached: however many times a directory is looked up, git
      runs at most once there, provided it prints a non-empty answer. */
  lemma {:induction false} AtMostOneExec(cache: Cache, cwd: string, gitOnPath: bool, outs: seq<string>)
    requires forall i :: 0 <= i < |outs| ==> Trim(outs[i]) != ""
    ensures Repeated(cache, cwd, gitOnPath, outs).1
            == if outs == [] || Hit(cache, cwd) || !gitOnPath then 0 else 1
    decreases |outs|
  {
    if outs != [] {
      var l := LookupSpec(cache, cwd, gitOnPath, outs[0]);
      if Hit(cache, cwd) {
        HitStaysHit(cache, cwd, gitOnPath, outs);
      } else if gitOnPath {
        assert Hit(l.cache, cwd);
        HitStaysHit(l.cache, cwd, gitOnPath, outs[1..]);
      } else {
        AtMostOneExec(l.cache, cwd, gitOnPath, outs[1..]);
      }
    }
  }

  /** An empty answer is remembered but never used: while git keeps printing
      nothing but white space, every lookup runs it again. */
  lemma {:induction false} EmptyAnswerAlwaysReruns(cache: Cache, cwd: string, outs: seq<string>)
    requires !Hit(cache, cwd)
    requires forall i :: 0 <= i < |outs| ==> Trim(outs[i]) == ""
    ensures Repeated(cache, cwd, true, outs).1 == |outs|
    decreases |outs|
  {
    if outs != [] {
      var l := LookupSpec(cache, cwd, true, outs[0]);
      assert !Hit(l.cache, cwd);
      EmptyAnswerAlwaysReruns(l.cache, cwd, outs[1..]);
    }
  }

  /** The cache is linked to the working directory: after `clear()`, a lookup
      in one directory and then in another runs git twice, and each directory
      keeps its own answer. */
  lemma CachePerDirectory(a: string, b: string, outA: string, outB: string)
    requires a != b
    ensures var la := LookupSpec(map[], a, true, outA);
            var lb := LookupSpec(la.cache, b, true, outB);
            la.executed && lb.executed
            && lb.cache == map[a := Trim(outA), b := Trim(outB)]
  {
    var la := LookupSpec(map[], a, true, outA);
    assert la.cache == map[a := Trim(outA)];
    var lb := LookupSpec(la.cache, b, true, outB);
    assert !Hit(la.cache, b);
    assert lb.cache == la.cache[b := Trim(outB)];
  }

  /** The answer is what git prints, without the trailing newline. */
  lemma NameIsWhatGitPrints(cwd: string)
    ensures LookupSpec(map[], cwd, true, "Coge\n").value == Some("Coge")
  {
    var s := "Coge\n";
    assert LeadingSpace(s) == 0 by {
      assert !IsSpace(s[0]);
    }
    assert ContentEnd(s, 0, |s|) == 4 by {
      assert IsSpace(s[4]) && !IsSpace(s[3]);
    }
    assert s[0..4] == "Coge";
  }
}
