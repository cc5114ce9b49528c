/**
 * The string computations of `DoctrineEntity` (src/DoctrineEntity.php):
 * PHP's `ucfirst`, and the directory paths and namespace it derives from
 * the capitalised domain name.
 *
 * `__DIR__` and `DIRECTORY_SEPARATOR` are values of the platform, given
 * as a `Platform` record.
 */
module EntityPaths {
  import opened Wrappers

  /** `__DIR__` of the source file and `DIRECTORY_SEPARATOR`. */
  datatype Platform = Platform(dir: string, separator: string)

  predicate IsLowerAscii(c: char)
  {
    'a' <= c <= 'z'
  }

  /** The C-locale upper-casing `ucfirst` applies to the first character: only `a`-`z` change. */
  function UpperAscii(c: char): (u: char)
    ensures !IsLowerAscii(u)
    ensures !IsLowerAscii(c) ==> u == c
    ensures IsLowerAscii(c) ==> 'A' <= u <= 'Z' && u as int + 32 == c as int
  {
    if IsLowerAscii(c) then (c as int - 32) as char else c
  }

  /** `ucfirst($s)`: the first character upper-cased, the rest kept. */
  function Ucfirst(s: string): (r: string)
    ensures |r| == |s|
    ensures |s| > 0 ==> r[0] == UpperAscii(s[0]) && r[1..] == s[1..]
    ensures |r| > 0 ==> !IsLowerAscii(r[0])
    ensures r == s <==> (|s| == 0 || !IsLowerAscii(s[0]))
  {
    if |s| == 0 then s else [UpperAscii(s[0])] + s[1..]
  }

  lemma UcfirstIdempotent(s: string)
    ensures Ucfirst(Ucfirst(s)) == Ucfirst(s)
  {
  }

  /** Two domain names give the same capitalised name exactly when they differ at most in the case of a leading letter. */
  lemma UcfirstSameExactly(s: string, t: string)
    ensures Ucfirst(s) == Ucfirst(t) <==>
              (|s| == |t| && (|s| > 0 ==> UpperAscii(s[0]) == UpperAscii(t[0]) && s[1..] == t[1..]))
  {
    if Ucfirst(s) == Ucfirst(t) && |s| > 0 {
      assert Ucfirst(s)[1..] == Ucfirst(t)[1..];
    }
    if |s| == |t| && |s| > 0 && UpperAscii(s[0]) == UpperAscii(t[0]) && s[1..] == t[1..] {
      assert Ucfirst(s) == [UpperAscii(s[0])] + s[1..];
    }
  }

  /** Each segment followed by the separator: the path segments `a`, `b` give `a<sep>b<sep>`. */
  function JoinEach(segs: seq<string>, sep: string): (path: string)
    decreases |segs|
  {
    if segs == [] then "" else segs[0] + sep + JoinEach(segs[1..], sep)
  }

  /** `relativeDirPath`: `__DIR__` followed by four `..` steps, each behind a separator, and a final separator. */
  function RelativeDirPath(p: Platform): (rel: string)
    ensures rel == p.dir + p.separator + JoinEach(["..", "..", "..", ".."], p.separator)
    ensures |rel| == |p.dir| + 5 * |p.separator| + 8
    ensures rel[..|p.dir|] == p.dir
    ensures rel[|rel| - |p.separator|..] == p.separator
  {
    var sep := p.separator;
    p.dir + sep + ".." + sep + ".." + sep + ".." + sep + ".." + sep
  }

  /** `$domainRootPath`: `src/core/Domain/` under the relative directory, with the platform separator. */
  function DomainRoot(rel: string, sep: string): (root: string)
    ensures root == rel + JoinEach(["src", "core", "Domain"], sep)
    ensures |root| == |rel| + 13 + 3 * |sep|
    ensures root[..|rel|] == rel
    ensures root[|root| - |sep|..] == sep
  {
    rel + "src" + sep + "core" + sep + "Domain" + sep
  }

  /** The directory the annotation driver reads: the domain root followed by the domain name. */
  function DriverPath(rel: string, sep: string, domain: string): (path: string)
    ensures |path| == |DomainRoot(rel, sep)| + |domain|
    ensures path[..|DomainRoot(rel, sep)|] == DomainRoot(rel, sep)
    ensures path[|DomainRoot(rel, sep)|..] == domain
  {
    DomainRoot(rel, sep) + domain
  }

  /** The proxy directory `_onInit` configures: `Proxies` inside the driver's directory, joined by a literal `/`. */
  function DomainProxyDir(rel: string, sep: string, domain: string): (dir: string)
    ensures |dir| == |DriverPath(rel, sep, domain)| + 8
    ensures dir[..|DriverPath(rel, sep, domain)|] == DriverPath(rel, sep, domain)
    ensures dir[|DriverPath(rel, sep, domain)|..] == "/Proxies"
  {
    DomainRoot(rel, sep) + domain + "/Proxies"
  }

  /** The proxy directory `setProxyDir(null)` configures: `Proxies` directly under the domain root. */
  function DefaultProxyDir(rel: string, sep: string): (dir: string)
    ensures |dir| == |DomainRoot(rel, sep)| + 7
    ensures dir[..|DomainRoot(rel, sep)|] == DomainRoot(rel, sep)
    ensures dir[|DomainRoot(rel, sep)|..] == "Proxies"
  {
    DomainRoot(rel, sep) + "Proxies"
  }

  /** `Core\Domain\` and `\Proxies`, the parts of a domain's proxy namespace around the domain name. */
  const NamespacePrefix: string := "Core\\Domain\\"
  const NamespaceSuffix: string := "\\Proxies"

  /** The default argument of `setProxyNamespace`: `Core\Domain\Proxies`. */
  const DefaultProxyNamespace: string := "Core\\Domain\\Proxies"

  /** The proxy namespace `_onInit` configures: `Core\Domain\<Domain>\Proxies`. */
  function DomainProxyNamespace(domain: string): (ns: string)
    ensures |ns| == |NamespacePrefix| + |domain| + |NamespaceSuffix|
    ensures ns[..|NamespacePrefix|] == NamespacePrefix
    ensures ns[|NamespacePrefix|..|NamespacePrefix| + |domain|] == domain
    ensures ns[|NamespacePrefix| + |domain|..] == NamespaceSuffix
  {
    NamespacePrefix + domain + NamespaceSuffix
  }

  /** Reads the domain name back out of a proxy namespace, when the namespace has the shape `_onInit` gives it. */
  function DomainOfNamespace(ns: string): (d: Option<string>)
  {
    var p, q := |NamespacePrefix|, |NamespaceSuffix|;
    if p + q <= |ns| && ns[..p] == NamespacePrefix && ns[|ns| - q..] == NamespaceSuffix
    then Some(ns[p..|ns| - q])
    else None
  }

  /** The domain name can always be read back from the namespace built from it. */
  lemma NamespaceRoundTrip(domain: string)
    ensures DomainOfNamespace(DomainProxyNamespace(domain)) == Some(domain)
  {
    var ns := DomainProxyNamespace(domain);
    assert ns[|ns| - |NamespaceSuffix|..] == NamespaceSuffix;
  }

  /** Conversely, whatever the reading finds rebuilds the namespace it was read from. */
  lemma NamespaceReadBack(ns: string)
    requires DomainOfNamespace(ns).Some?
    ensures DomainProxyNamespace(DomainOfNamespace(ns).value) == ns
  {
    var p, q := |NamespacePrefix|, |NamespaceSuffix|;
    assert ns == ns[..p] + ns[p..|ns| - q] + ns[|ns| - q..];
  }

  /** The default namespace is not the proxy namespace of any domain. */
  lemma DefaultNamespaceNamesNoDomain(domain: string)
    ensures DefaultProxyNamespace != DomainProxyNamespace(domain)
    ensures DomainOfNamespace(DefaultProxyNamespace) == None
  {
  }

  /** Different domain names give different driver paths, proxy directories and namespaces. */
  lemma DerivationsAreInjective(rel: string, sep: string, d1: string, d2: string)
    ensures DriverPath(rel, sep, d1) == DriverPath(rel, sep, d2) <==> d1 == d2
    ensures DomainProxyDir(rel, sep, d1) == DomainProxyDir(rel, sep, d2) <==> d1 == d2
    ensures DomainProxyNamespace(d1) == DomainProxyNamespace(d2) <==> d1 == d2
  {
    if DomainProxyDir(rel, sep, d1) == DomainProxyDir(rel, sep, d2) {
      assert |d1| == |d2|;
    }
    if DomainProxyNamespace(d1) == DomainProxyNamespace(d2) {
      NamespaceRoundTrip(d1);
      NamespaceRoundTrip(d2);
    }
  }

  /** `setProxyDir(null)` never points at the proxy directory of a domain. */
  lemma DefaultProxyDirIsNoDomainProxyDir(rel: string, sep: string, domain: string)
    ensures DefaultProxyDir(rel, sep) != DomainProxyDir(rel, sep, domain)
  {
  }
}
