/** The audit pipeline (src/audit_service.cpp): key, cache check, CLI run,
    parse, store. The CLI (CTraceCLI::execute) is a function parameter the
    model knows nothing about; the parser is the shipped one (src/parser.cpp),
    which returns the empty list for every output. */
module Service {
  import opened Text
  import opened AuditResults
  import opened Cache

  /** The cache key: the file, a '|' and the options, concatenated. */
  function CacheKey(file: string, options: string): (key: string)
    ensures |key| == |file| + 1 + |options|
    ensures key[..|file|] == file && key[|file|] == '|' && key[|file| + 1..] == options
  {
    file + "|" + options
  }

  /** Without '|' in the file names, different (file, options) pairs get different keys. */
  lemma KeyDeterminesPair(f1: string, o1: string, f2: string, o2: string)
    requires '|' !in f1 && '|' !in f2
    requires CacheKey(f1, o1) == CacheKey(f2, o2)
    ensures f1 == f2 && o1 == o2
  {
  }

  /** With a '|' inside a component two different pairs share a key and so a cache entry. */
  lemma KeyCollision()
    ensures ("a|b", "c") != ("a", "b|c")
    ensures CacheKey("a|b", "c") == CacheKey("a", "b|c")
  {
    assert CacheKey("a|b", "c") == "a|b|c" == CacheKey("a", "b|c");
  }

  /** Parser::parse as shipped: its body is commented out after `return QList()`. */
  function Parse(output: string): (results: seq<Finding>)
    ensures results == []
  {
    []
  }

  /** What one performAudit call returns, the cache it leaves behind, and
      whether it ran the CLI. */
  datatype Outcome = Outcome(results: seq<Finding>, cache: Store, ranCli: bool)

  /** performAudit over a cache value: a non-empty cached list is a hit; an
      empty or missing one is a miss, which runs the CLI, parses its output
      and stores the parsed list under the key. */
  function Audit(m: Store, file: string, options: string, execute: (string, string) -> string): Outcome
  {
    var key := CacheKey(file, options);
    var cached := Lookup(m, key);
    if cached != [] then Outcome(cached, m, false)
    else
      var results := Parse(execute(file, options));
      Outcome(results, m[key := results], true)
  }

  /** A hit returns the cached list, runs nothing and leaves the cache as it was. */
  lemma HitReturnsCached(m: Store, file: string, options: string, execute: (string, string) -> string)
    requires Lookup(m, CacheKey(file, options)) != []
    ensures Audit(m, file, options, execute) == Outcome(Lookup(m, CacheKey(file, options)), m, false)
  {
  }

  /** A miss returns the parse of the CLI output and stores it under the key. */
  lemma MissRunsAndStores(m: Store, file: string, options: string, execute: (string, string) -> string)
    requires Lookup(m, CacheKey(file, options)) == []
    ensures var o := Audit(m, file, options, execute);
      && o.ranCli
      && o.results == Parse(execute(file, options))
      && Lookup(o.cache, CacheKey(file, options)) == o.results
  {
  }

  /** A call touches no cache entry other than its own key's. */
  lemma AuditTouchesOnlyItsKey(m: Store, file: string, options: string, execute: (string, string) -> string, k: string)
    requires k != CacheKey(file, options)
    ensures var o := Audit(m, file, options, execute);
      (k in o.cache <==> k in m) && Lookup(o.cache, k) == Lookup(m, k)
  {
  }

  /** An empty result is stored, yet it reads as a miss, so the next call
      with the same file and options runs the CLI again. */
  lemma EmptyResultRunsAgain(m: Store, file: string, options: string, execute: (string, string) -> string)
    requires Parse(execute(file, options)) == []
    ensures var first := Audit(m, file, options, execute);
      first.ranCli ==>
        && CacheKey(file, options) in first.cache
        && Audit(first.cache, file, options, execute).ranCli
  {
  }

  /** Every stored list is empty: what the shipped parser leaves behind. */
  ghost predicate AllEmpty(m: Store)
  {
    forall k :: k in m ==> m[k] == []
  }

  /** With the shipped parser the cache never hits: every call runs the CLI,
      returns the empty list and keeps every stored list empty. */
  lemma ShippedParserNeverHits(m: Store, file: string, options: string, execute: (string, string) -> string)
    requires AllEmpty(m)
    ensures var o := Audit(m, file, options, execute);
      o.ranCli && o.results == [] && AllEmpty(o.cache)
  {
  }

  /** Runs a sequence of audits, counting the CLI runs. */
  function CliRuns(m: Store, calls: seq<(string, string)>, execute: (string, string) -> string): nat
    decreases |calls|
  {
    if |calls| == 0 then 0
    else
      var o := Audit(m, calls[0].0, calls[0].1, execute);
      (if o.ranCli then 1 else 0) + CliRuns(o.cache, calls[1..], execute)
  }

  /** From a fresh cache, any sequence of calls runs the CLI once per call:
      the cache saves nothing. */
  lemma {:induction false} CacheNeverSaves(m: Store, calls: seq<(string, string)>, execute: (string, string) -> string)
    requires AllEmpty(m)
    ensures CliRuns(m, calls, execute) == |calls|
    decreases |calls|
  {
    if |calls| > 0 {
      var o := Audit(m, calls[0].0, calls[0].1, execute);
      ShippedParserNeverHits(m, calls[0].0, calls[0].1, execute);
      CacheNeverSaves(o.cache, calls[1..], execute);
    }
  }

  class AuditService {
    var auditCache: AuditCache
    /** Every (file, options) the CLI was run with, in order. */
    ghost var cliRuns: seq<(string, string)>

    ghost predicate Valid()
      reads this, auditCache
    {
      AllEmpty(auditCache.cache)
    }

    constructor ()
      ensures fresh(auditCache) && auditCache.cache == map[] && cliRuns == []
      ensures Valid()
    {
      auditCache := new AuditCache();
      cliRuns := [];
    }

    /** performAudit: the cache key, the cache check, and on a miss the CLI
        run, the parse and the store. */
    method PerformAudit(file: string, options: string, execute: (string, string) -> string)
        returns (results: seq<Finding>)
      modifies this, auditCache
      ensures auditCache == old(auditCache)
      ensures var o := Audit(old(auditCache.cache), file, options, execute);
        && results == o.results
        && auditCache.cache == o.cache
        && cliRuns == old(cliRuns) + if o.ranCli then [(file, options)] else []
      ensures old(Valid()) ==> Valid() && results == [] && cliRuns == old(cliRuns) + [(file, options)]
    {
      var key := CacheKey(file, options);
      var cached := auditCache.GetCachedResults(key);
      if cached != [] {
        return cached;
      }
      var output := execute(file, options);
      cliRuns := cliRuns + [(file, options)];
      results := Parse(output);
      auditCache.CacheResults(key, results);
    }
  }
}
