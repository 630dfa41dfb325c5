/**
 * The build extension's service analysis: naming the OpenAPI contract generated for each HTTP
 * service of a Ballerina file, so that services sharing a base path do not share a file, and
 * the once-only "generation skipped" notice.
 */
module ServiceAnalysis {
  import opened Common

  /**
   * The separator and suffix constants the naming uses. Their values live outside this model;
   * `slash` and `hyphen` are single characters that are not regular-expression metacharacters
   * and `underscore` holds no `$` or `\`, so the regular-expression calls on them act literally.
   */
  datatype Naming = Naming(slash: char, hyphen: char, underscore: string, openApiSuffix: string, yamlExtension: string)

  /** What the naming relies on of the constants: two different, visible separators. */
  predicate DistinctSeparators(naming: Naming) {
    naming.slash != naming.hyphen && !IsJavaWhitespace(naming.slash) && !IsJavaWhitespace(naming.hyphen)
  }

  datatype MemberKind = ServiceDeclaration | OtherMember

  /** What the semantic model says about a service declaration's symbol. */
  datatype ServiceSymbol = ServiceSymbol(hash: int, isServiceDeclarationSymbol: bool)

  /**
   * A member of the module part: its kind, whether it is attached to an HTTP listener, its
   * symbol if the semantic model has one, and its absolute resource path.
   */
  datatype ModuleMember = ModuleMember(kind: MemberKind, isHttpService: bool, symbol: Option<ServiceSymbol>, absolutePath: string)

  /** A member that names a contract: an HTTP service declaration with a service-declaration symbol. */
  predicate Registers(m: ModuleMember) {
    m.kind == ServiceDeclaration && m.isHttpService && m.symbol.Some? && m.symbol.value.isServiceDeclarationSymbol
  }

  function HashOf(m: ModuleMember): int
    requires Registers(m)
  {
    m.symbol.value.hash
  }

  // ---------------------------------------------------------------------------
  // extractServiceNodes
  // ---------------------------------------------------------------------------

  /** The service map and the list of base paths seen so far. */
  datatype Services = Services(names: map<int, string>, allServices: seq<string>)

  /** The name given to a registering member, given the base paths already seen. */
  function ServiceName(m: ModuleMember, seen: seq<string>, naming: Naming): string
    requires Registers(m)
  {
    if m.absolutePath in seen then m.absolutePath + [naming.hyphen] + IntToString(HashOf(m))
    else m.absolutePath
  }

  /** One member of the loop. */
  function Visit(st: Services, m: ModuleMember, naming: Naming): Services {
    if !Registers(m) then st
    else if m.absolutePath in st.allServices then
      st.(names := st.names[HashOf(m) := ServiceName(m, st.allServices, naming)])
    else
      Services(st.names[HashOf(m) := m.absolutePath], st.allServices + [m.absolutePath])
  }

  /** The loop's meaning: every member in order, from the caller's map and an empty path list. */
  function Extract(members: seq<ModuleMember>, names: map<int, string>, naming: Naming): Services
    decreases |members|
  {
    if members == [] then Services(names, [])
    else Visit(Extract(members[..|members| - 1], names, naming), members[|members| - 1], naming)
  }

  /** `extractServiceNodes`: fills the caller's service map; `allServices` is its local path list. */
  method ExtractServiceNodes(members: seq<ModuleMember>, services: map<int, string>, naming: Naming)
    returns (names: map<int, string>, allServices: seq<string>)
    ensures Services(names, allServices) == Extract(members, services, naming)
    ensures NoDup(allServices)
    ensures forall p :: p in allServices <==> PathRegistered(members, |members|, p)
    ensures names.Keys == services.Keys + RegisteredHashes(members)
  {
    names := services;
    allServices := [];
    for i := 0 to |members|
      invariant Services(names, allServices) == Extract(members[..i], services, naming)
    {
      var m := members[i];
      if m.kind == ServiceDeclaration && m.isHttpService {
        if m.symbol.Some? && m.symbol.value.isServiceDeclarationSymbol {
          var service := m.absolutePath;
          var updateServiceName := service;
          if service in allServices {
            updateServiceName := service + [naming.hyphen] + IntToString(m.symbol.value.hash);
          } else {
            allServices := allServices + [service];
          }
          names := names[m.symbol.value.hash := updateServiceName];
        }
      }
      assert members[..i + 1][..i] == members[..i];
    }
    assert members[..|members|] == members;
    ExtractPaths(members, services, naming);
    ExtractKeys(members, services, naming);
  }

  /** Some registering member before index `n` has base path `p`. */
  predicate PathRegistered(members: seq<ModuleMember>, n: int, p: string)
    requires 0 <= n <= |members|
  {
    exists j :: 0 <= j < n && Registers(members[j]) && members[j].absolutePath == p
  }

  ghost function RegisteredHashes(members: seq<ModuleMember>): set<int> {
    set j | 0 <= j < |members| && Registers(members[j]) :: HashOf(members[j])
  }

  /** `allServices` holds each registered base path exactly once. */
  lemma {:induction false} ExtractPaths(members: seq<ModuleMember>, names: map<int, string>, naming: Naming)
    ensures NoDup(Extract(members, names, naming).allServices)
    ensures forall p :: p in Extract(members, names, naming).allServices <==> PathRegistered(members, |members|, p)
    decreases |members|
  {
    if members != [] {
      var n := |members| - 1;
      var init := members[..n];
      ExtractPaths(init, names, naming);
      forall p ensures PathRegistered(members, |members|, p) <==> PathRegistered(init, n, p) || (Registers(members[n]) && members[n].absolutePath == p) {
        if PathRegistered(init, n, p) {
          var j :| 0 <= j < n && Registers(init[j]) && init[j].absolutePath == p;
          assert members[j] == init[j];
        }
        if PathRegistered(members, |members|, p) {
          var j :| 0 <= j < |members| && Registers(members[j]) && members[j].absolutePath == p;
          if j < n {
            assert init[j] == members[j];
          }
        }
      }
    }
  }

  /** The map gains exactly the hashes of the registering members. */
  lemma {:induction false} ExtractKeys(members: seq<ModuleMember>, names: map<int, string>, naming: Naming)
    ensures Extract(members, names, naming).names.Keys == names.Keys + RegisteredHashes(members)
    decreases |members|
  {
    if members != [] {
      var n := |members| - 1;
      var init := members[..n];
      ExtractKeys(init, names, naming);
      assert forall j :: 0 <= j < n ==> init[j] == members[j];
      if Registers(members[n]) {
        assert RegisteredHashes(members) == RegisteredHashes(init) + {HashOf(members[n])};
      } else {
        assert RegisteredHashes(members) == RegisteredHashes(init);
      }
    }
  }

  /**
   * The name a registering member is given: its base path if no earlier registering member has
   * that path, otherwise the path, the hyphen and its symbol's hash.
   */
  function NameAt(members: seq<ModuleMember>, i: int, naming: Naming): string
    requires 0 <= i < |members| && Registers(members[i])
  {
    var m := members[i];
    if PathRegistered(members, i, m.absolutePath) then m.absolutePath + [naming.hyphen] + IntToString(HashOf(m))
    else m.absolutePath
  }

  /** No later registering member has the same hash as member `i`. */
  predicate LastWithHash(members: seq<ModuleMember>, i: int)
    requires 0 <= i < |members| && Registers(members[i])
  {
    forall j :: i < j < |members| && Registers(members[j]) ==> HashOf(members[j]) != HashOf(members[i])
  }

  /**
   * The first service with a base path keeps it and later ones with that path are told apart by
   * their hash; each hash ends up with the name of the last member carrying it.
   */
  lemma {:induction false} ExtractNames(members: seq<ModuleMember>, names: map<int, string>, naming: Naming, i: int)
    requires 0 <= i < |members| && Registers(members[i]) && LastWithHash(members, i)
    ensures HashOf(members[i]) in Extract(members, names, naming).names
    ensures Extract(members, names, naming).names[HashOf(members[i])] == NameAt(members, i, naming)
    decreases |members|
  {
    var n := |members| - 1;
    var init := members[..n];
    var before := Extract(init, names, naming);
    ExtractPaths(init, names, naming);
    if i == n {
      assert PathRegistered(members, i, members[i].absolutePath) <==> PathRegistered(init, n, members[i].absolutePath) by {
        if PathRegistered(init, n, members[i].absolutePath) {
          var j :| 0 <= j < n && Registers(init[j]) && init[j].absolutePath == members[i].absolutePath;
          assert members[j] == init[j];
        }
        if PathRegistered(members, i, members[i].absolutePath) {
          var j :| 0 <= j < i && Registers(members[j]) && members[j].absolutePath == members[i].absolutePath;
          assert init[j] == members[j];
        }
      }
    } else {
      assert init[i] == members[i];
      assert LastWithHash(init, i) by {
        forall j | i < j < |init| && Registers(init[j]) ensures HashOf(init[j]) != HashOf(init[i]) {
          assert init[j] == members[j];
        }
      }
      ExtractNames(init, names, naming, i);
      assert NameAt(init, i, naming) == NameAt(members, i, naming) by {
        if PathRegistered(init, i, init[i].absolutePath) {
          var j :| 0 <= j < i && Registers(init[j]) && init[j].absolutePath == init[i].absolutePath;
          assert members[j] == init[j];
        }
        if PathRegistered(members, i, members[i].absolutePath) {
          var j :| 0 <= j < i && Registers(members[j]) && members[j].absolutePath == members[i].absolutePath;
          assert init[j] == members[j];
        }
      }
    }
  }

  // ---------------------------------------------------------------------------
  // constructFileName
  // ---------------------------------------------------------------------------

  /** `replaceAll` with a literal one-character pattern and a literal replacement. */
  function ReplaceAllChar(s: string, c: char, replacement: string): (r: string)
    ensures c !in replacement ==> c !in r
    ensures c !in s ==> r == s
  {
    if s == [] then []
    else (if s[0] == c then replacement else [s[0]]) + ReplaceAllChar(s[1..], c, replacement)
  }

  /** The source file's path with slashes replaced by underscores, up to its first dot. */
  function BalFileName(filePath: string, naming: Naming): (r: Result<string>)
    ensures r.Ok? ==> '.' !in r.value
    ensures r.Err? <==> var p := ReplaceAllChar(filePath, naming.slash, naming.underscore);
                        p != [] && forall i :: 0 <= i < |p| ==> p[i] == '.'
  {
    SplitHead(ReplaceAllChar(filePath, naming.slash, naming.underscore), '.')
  }

  /**
   * `constructFileName`: `fileName` is the normalised form of the service's registered name
   * (the normaliser is outside this model). The root path gives `<file>` + suffix; a
   * de-duplicated root path or a blank name gives `<file>_<hash>` + suffix; any other name
   * is used as it is.
   */
  function ConstructFileName(filePath: string, fileName: string, hash: int, naming: Naming): (r: Result<string>)
    ensures r.Ok? ==> EndsWith(r.value, naming.openApiSuffix + naming.yamlExtension)
    ensures BalFileName(filePath, naming).Err? ==> r.Err?
  {
    match BalFileName(filePath, naming)
    case Err(t) => Err(t)
    case Ok(balFileName) =>
      SuffixAtEnd(balFileName, naming.openApiSuffix, naming.yamlExtension);
      if fileName == [naming.slash] then Ok(balFileName + naming.openApiSuffix + naming.yamlExtension)
      else
        var hashed := balFileName + naming.underscore + IntToString(hash) + naming.openApiSuffix + naming.yamlExtension;
        var named := fileName + naming.openApiSuffix + naming.yamlExtension;
        SuffixAtEnd(balFileName + naming.underscore + IntToString(hash), naming.openApiSuffix, naming.yamlExtension);
        SuffixAtEnd(fileName, naming.openApiSuffix, naming.yamlExtension);
        if naming.hyphen in fileName then
          match SplitHead(fileName, naming.hyphen)
          case Err(t) => Err(t)
          case Ok(head) =>
            if head == [naming.slash] || IsBlank(fileName) then Ok(hashed) else Ok(named)
        else if IsBlank(fileName) then Ok(hashed)
        else Ok(named)
  }

  lemma SuffixAtEnd(stem: string, a: string, b: string)
    ensures EndsWith(stem + a + b, a + b)
  {
    assert stem + a + b == stem + (a + b);
  }

  /** The root path names the contract after the source file alone. */
  lemma RootServiceFileName(filePath: string, hash: int, naming: Naming, balFileName: string)
    requires BalFileName(filePath, naming) == Ok(balFileName)
    ensures ConstructFileName(filePath, [naming.slash], hash, naming)
      == Ok(balFileName + naming.openApiSuffix + naming.yamlExtension)
  {
  }

  /** A de-duplicated root path (`/-<hash>`) or a blank name adds the hash to the source file's name. */
  lemma HashedFileName(filePath: string, fileName: string, hash: int, naming: Naming, balFileName: string)
    requires BalFileName(filePath, naming) == Ok(balFileName)
    requires DistinctSeparators(naming)
    requires IsBlank(fileName) || (fileName != [naming.slash] && StartsWith(fileName, [naming.slash, naming.hyphen]))
    ensures ConstructFileName(filePath, fileName, hash, naming)
      == Ok(balFileName + naming.underscore + IntToString(hash) + naming.openApiSuffix + naming.yamlExtension)
  {
    forall i | 0 <= i < |fileName| && IsBlank(fileName) ensures fileName[i] != naming.slash {
      assert IsJavaWhitespace(fileName[i]);
    }
    if StartsWith(fileName, [naming.slash, naming.hyphen]) {
      assert fileName[0] != naming.hyphen && fileName[1] == naming.hyphen;
      IndexOfAtMost(fileName, naming.hyphen, 1);
      assert fileName[..1] == [naming.slash];
      assert !(forall i :: 0 <= i < |fileName| ==> fileName[i] == naming.hyphen);
      assert SplitHead(fileName, naming.hyphen) == Ok([naming.slash]);
    } else {
      forall i | 0 <= i < |fileName| ensures fileName[i] != naming.hyphen {
        assert IsJavaWhitespace(fileName[i]);
      }
    }
  }

  lemma {:induction false} IndexOfAtMost(s: string, c: char, k: int)
    requires 0 <= k < |s| && s[k] == c
    ensures IndexOf(s, c) <= k
  {
    if s[0] != c {
      IndexOfAtMost(s[1..], c, k - 1);
    }
  }

  /** Any other name without a hyphen is kept as it is. */
  lemma PlainFileName(filePath: string, fileName: string, hash: int, naming: Naming, balFileName: string)
    requires BalFileName(filePath, naming) == Ok(balFileName)
    requires fileName != [naming.slash] && !IsBlank(fileName) && naming.hyphen !in fileName
    ensures ConstructFileName(filePath, fileName, hash, naming) == Ok(fileName + naming.openApiSuffix + naming.yamlExtension)
  {
  }

  /** A name made only of hyphens makes the split in `constructFileName` come back empty. */
  lemma AllHyphensThrows(filePath: string, hash: int, naming: Naming, balFileName: string)
    requires BalFileName(filePath, naming) == Ok(balFileName)
    requires naming.slash != naming.hyphen
    ensures ConstructFileName(filePath, [naming.hyphen, naming.hyphen], hash, naming) == Err(ArrayIndexOutOfBounds)
  {
  }

  // ---------------------------------------------------------------------------
  // The once-only notice
  // ---------------------------------------------------------------------------

  /** The task's `isErrorPrinted` flag, shared by every run of the analysis. */
  class ErrorLatch {
    var isErrorPrinted: bool

    constructor ()
      ensures !isErrorPrinted
    {
      isErrorPrinted := false;
    }

    /** `setIsWarningPrinted`. */
    method SetIsWarningPrinted()
      modifies this
      ensures isErrorPrinted
    {
      isErrorPrinted := true;
    }

    /**
     * The compilation-error branch of `perform`: with errors it prints the notice unless it
     * has been printed already, and sets the flag; without errors nothing changes.
     */
    method OnCompilation(hasErrors: bool) returns (printed: bool)
      modifies this
      ensures printed <==> hasErrors && !old(isErrorPrinted)
      ensures isErrorPrinted == (old(isErrorPrinted) || hasErrors)
    {
      printed := false;
      if hasErrors {
        if !isErrorPrinted {
          SetIsWarningPrinted();
          printed := true;
        }
      }
    }
  }

  /** How many notices a series of analyses prints, starting from the flag `printed`. */
  function NoticesPrinted(printed: bool, runs: seq<bool>): nat
    decreases |runs|
  {
    if runs == [] then 0
    else (if runs[0] && !printed then 1 else 0) + NoticesPrinted(printed || runs[0], runs[1..])
  }

  /** The notice appears once if some run has errors and the flag was still down, and never otherwise. */
  lemma {:induction false} NoticeAtMostOnce(printed: bool, runs: seq<bool>)
    ensures NoticesPrinted(printed, runs) <= 1
    ensures NoticesPrinted(printed, runs) == 1 <==> !printed && true in runs
    decreases |runs|
  {
    if runs != [] {
      NoticeAtMostOnce(printed || runs[0], runs[1..]);
      if runs[0] {
        NoticeNoneOnceSet(runs[1..]);
      }
      assert true in runs <==> runs[0] || true in runs[1..];
    }
  }

  lemma {:induction false} NoticeNoneOnceSet(runs: seq<bool>)
    ensures NoticesPrinted(true, runs) == 0
    decreases |runs|
  {
    if runs != [] {
      NoticeNoneOnceSet(runs[1..]);
    }
  }

  /** A series of analyses on one latch prints exactly `NoticesPrinted` notices. */
  method RunAnalyses(latch: ErrorLatch, runs: seq<bool>) returns (count: nat)
    modifies latch
    ensures count == NoticesPrinted(old(latch.isErrorPrinted), runs)
    ensures count <= 1
  {
    count := 0;
    ghost var start := latch.isErrorPrinted;
    NoticeAtMostOnce(start, runs);
    for i := 0 to |runs|
      invariant count + NoticesPrinted(latch.isErrorPrinted, runs[i..]) == NoticesPrinted(start, runs)
    {
      var printed := latch.OnCompilation(runs[i]);
      if printed {
        count := count + 1;
      }
      assert runs[i..][1..] == runs[i + 1..];
    }
  }
}
