/** Namespace directories under a lexical model of Go's path/filepath on Unix. */
module Paths {
  import opened Text

  function SplitAll(s: string, sep: char): (parts: seq<string>)
    ensures parts != []
    decreases |s|
  {
    var i := IndexOf(s, sep);
    if i == |s| then [s] else [s[..i]] + SplitAll(s[i + 1..], sep)
  }

  /** One path element on top of the ones kept so far. */
  function Push(rooted: bool, kept: seq<string>, part: string): seq<string> {
    if part == "" || part == "." then kept
    else if part != ".." then kept + [part]
    else if kept != [] && kept[|kept| - 1] != ".." then kept[..|kept| - 1]
    else if rooted then kept
    else kept + [".."]
  }

  function Reduce(rooted: bool, parts: seq<string>): seq<string> {
    if parts == [] then []
    else Push(rooted, Reduce(rooted, parts[..|parts| - 1]), parts[|parts| - 1])
  }

  predicate Rooted(path: string) { path != "" && path[0] == '/' }

  /** The elements of a path once it has been cleaned. */
  function Elements(path: string): seq<string> {
    Reduce(Rooted(path), SplitAll(path, '/'))
  }

  /** filepath.Clean */
  function Clean(path: string): (r: string)
    ensures r != ""
  {
    var text := Join(Elements(path), "/");
    if Rooted(path) then "/" + text else if text == "" then "." else text
  }

  /** filepath.Join of a non-empty path and one more element. */
  function JoinPath(dir: string, elem: string): (r: string)
    requires dir != ""
    ensures r != ""
  {
    if elem == "" then Clean(dir) else Clean(dir + "/" + elem)
  }

  // ---- Namespace names ----

  predicate Alphanumeric(c: char) {
    'A' <= c <= 'Z' || 'a' <= c <= 'z' || '0' <= c <= '9'
  }

  /** namespacePattern */
  predicate MatchesPattern(name: string) {
    && 1 <= |name| <= 63 && Alphanumeric(name[0])
    && forall i :: 1 <= i < |name| ==> Alphanumeric(name[i]) || name[i] == '.' || name[i] == '_' || name[i] == '-'
  }

  predicate Accepted(name: string) {
    MatchesPattern(name) && name != "." && name != ".."
  }

  function NamespaceDir(root: string, name: string): (dir: Option<string>)
    requires root != ""
    ensures dir.Some? <==> Accepted(name)
    ensures dir.Some? ==> dir.value != ""
    ensures dir.Some? ==>
              && 1 <= |name| <= 63
              && (forall c :: c in name ==> Alphanumeric(c) || c == '.' || c == '_' || c == '-')
              && name[0] != '.' && name[0] != '_' && name[0] != '-'
  {
    if Accepted(name) then Some(JoinPath(root, name)) else None
  }

  function ContextqRoot(root: string, name: string): Option<string>
    requires root != ""
  {
    match NamespaceDir(root, name)
    case None => None
    case Some(dir) => Some(JoinPath(dir, CONTEXTQ))
  }

  // ---- What joining means ----

  lemma {:induction false} SplitAppend(a: string, b: string)
    ensures SplitAll(a + ['/'] + b, '/') == SplitAll(a, '/') + SplitAll(b, '/')
    decreases |a|
  {
    var i := IndexOf(a, '/');
    IndexOfFirst(a, '/');
    if i == |a| {
      assert a[..i] == a;
      SplitAtFirst(a, b);
    } else {
      var rest := a[i + 1..];
      var tail := rest + ['/'] + b;
      Regroup(a, i, b);
      SplitAtFirst(a[..i], tail);
      SplitAppend(rest, b);
      var parts, more := SplitAll(rest, '/'), SplitAll(b, '/');
      assert [a[..i]] + (parts + more) == ([a[..i]] + parts) + more;
    }
  }

  lemma Regroup(a: string, i: nat, b: string)
    requires i < |a| && a[i] == '/'
    ensures a + ['/'] + b == a[..i] + ['/'] + (a[i + 1..] + ['/'] + b)
  {
  }

  lemma SplitAtFirst(first: string, rest: string)
    requires '/' !in first
    ensures SplitAll(first + ['/'] + rest, '/') == [first] + SplitAll(rest, '/')
  {
    IndexOfSeparator(first, '/', rest);
    var s := first + ['/'] + rest;
    assert s[..|first|] == first && s[|first| + 1..] == rest;
  }

  lemma SplitPlain(s: string)
    requires '/' !in s
    ensures SplitAll(s, '/') == [s]
  {
    assert IndexOf(s, '/') == |s|;
  }

  predicate PlainName(elem: string) {
    elem != "" && elem != "." && elem != ".." && '/' !in elem
  }

  lemma AcceptedIsPlain(name: string)
    requires Accepted(name)
    ensures PlainName(name)
  {
  }

  /** Joining a cleaned absolute path and a plain name appends one element, and a slash and the name to the text. */
  lemma JoinPlain(dir: string, elem: string)
    requires Rooted(dir) && Clean(dir) == dir && PlainName(elem)
    ensures JoinPath(dir, elem) == (if dir == "/" then "/" + elem else dir + "/" + elem)
    ensures Elements(JoinPath(dir, elem)) == Elements(dir) + [elem]
    ensures Rooted(JoinPath(dir, elem)) && Clean(JoinPath(dir, elem)) == JoinPath(dir, elem)
  {
    ElementsAppend(dir, elem);
    var kept := Elements(dir);
    var p := dir + ['/'] + elem;
    assert dir + "/" + elem == p;
    var all := kept + [elem];
    assert all[..|all| - 1] == kept;
    if kept == [] {
      assert dir == "/";
      assert all == [elem];
      ElementsOfSlash(elem);
    } else {
      assert dir == "/" + Join(kept, "/");
      JoinNotEmpty(dir, kept);
      assert Join(all, "/") == Join(kept, "/") + "/" + elem;
      assert Clean(p) == p;
    }
  }

  lemma ElementsAppend(dir: string, elem: string)
    requires Rooted(dir) && PlainName(elem)
    ensures Rooted(dir + ['/'] + elem)
    ensures Elements(dir + ['/'] + elem) == Elements(dir) + [elem]
  {
    SplitAppend(dir, elem);
    SplitPlain(elem);
    var parts := SplitAll(dir, '/') + [elem];
    assert parts[..|parts| - 1] == SplitAll(dir, '/');
  }

  lemma ElementsOfSlash(elem: string)
    requires PlainName(elem)
    ensures Elements("/" + elem) == [elem]
  {
    SplitAppend("", elem);
    assert "" + ['/'] + elem == "/" + elem;
    SplitPlain("");
    SplitPlain(elem);
    assert SplitAll("/" + elem, '/') == ["", elem];
    assert ["", elem][..1] == [""] && [""][..0] == [];
    assert Reduce(true, [""]) == [];
  }

  lemma JoinNotEmpty(dir: string, kept: seq<string>)
    requires Rooted(dir) && kept == Elements(dir) && kept != [] && dir == "/" + Join(kept, "/")
    ensures dir != "/"
  {
    SlashElements();
  }

  lemma SlashElements()
    ensures Elements("/") == []
  {
    var slash: string := [] + ['/'] + [];
    assert "/" == slash;
    SplitAppend([], []);
    SplitPlain([]);
    assert SplitAll(slash, '/') == [[], []];
    EmptyElements();
  }

  // ---- Cleaned paths ----

  lemma {:induction false} SplitNoSeparator(s: string)
    ensures forall p :: p in SplitAll(s, '/') ==> '/' !in p
    decreases |s|
  {
    var i := IndexOf(s, '/');
    IndexOfFirst(s, '/');
    if i < |s| {
      SplitNoSeparator(s[i + 1..]);
    } else {
      assert s[..i] == s;
    }
  }

  lemma {:induction false} ReducePlain(parts: seq<string>)
    requires forall p :: p in parts ==> '/' !in p
    ensures forall p :: p in Reduce(true, parts) ==> PlainName(p)
    decreases |parts|
  {
    if parts != [] {
      ReducePlain(parts[..|parts| - 1]);
    }
  }

  lemma {:induction false} ElementsOfText(kept: seq<string>)
    requires forall p :: p in kept ==> PlainName(p)
    ensures Elements("/" + Join(kept, "/")) == kept
    decreases |kept|
  {
    if kept == [] {
      assert "/" + Join(kept, "/") == "/";
      SlashElements();
    } else if |kept| == 1 {
      ElementsOfSlash(kept[0]);
      assert kept == [kept[0]];
    } else {
      var n := |kept| - 1;
      var init := kept[..n];
      ElementsOfText(init);
      var dir := "/" + Join(init, "/");
      ElementsAppend(dir, kept[n]);
      assert "/" + Join(kept, "/") == dir + ['/'] + kept[n];
      assert kept == init + [kept[n]];
    }
  }

  lemma EmptyElements()
    ensures Reduce(true, [[], []]) == []
  {
    var two: seq<string> := [[], []];
    assert two[..1] == [[]] && two[..1][..0] == [];
    assert Reduce(true, two[..1]) == [];
  }

  lemma CleanIdempotent(path: string)
    requires Rooted(path)
    ensures Rooted(Clean(path)) && Clean(Clean(path)) == Clean(path)
  {
    SplitNoSeparator(path);
    ReducePlain(SplitAll(path, '/'));
    ElementsOfText(Elements(path));
  }

  // ---- Isolation ----

  /** b is a or lies below a. */
  predicate PathPrefix(a: string, b: string) {
    a == b || a + ['/'] <= b
  }

  /** Every accepted name is a direct child of the root. */
  lemma NamespaceIsChild(root: string, name: string)
    requires Rooted(root) && Clean(root) == root && Accepted(name)
    ensures var dir := NamespaceDir(root, name).value;
            && Elements(dir) == Elements(root) + [name]
            && dir == (if root == "/" then "/" + name else root + "/" + name)
            && Rooted(dir) && Clean(dir) == dir
  {
    AcceptedIsPlain(name);
    JoinPlain(root, name);
  }

  /** Distinct names have directories neither of which contains the other. */
  lemma NamespacesDisjoint(root: string, name: string, other: string)
    requires Rooted(root) && Clean(root) == root && Accepted(name) && Accepted(other) && name != other
    ensures !PathPrefix(NamespaceDir(root, name).value, NamespaceDir(root, other).value)
    ensures !PathPrefix(NamespaceDir(root, other).value, NamespaceDir(root, name).value)
  {
    NamespaceIsChild(root, name);
    NamespaceIsChild(root, other);
    var base := if root == "/" then "/" else root + "/";
    assert NamespaceDir(root, name).value == base + name;
    assert NamespaceDir(root, other).value == base + other;
    AcceptedIsPlain(name);
    AcceptedIsPlain(other);
    NotBelow(base, name, other);
    NotBelow(base, other, name);
  }

  lemma NotBelow(base: string, name: string, other: string)
    requires name != other && '/' !in name && '/' !in other
    ensures !PathPrefix(base + name, base + other)
  {
    var a, b := base + name, base + other;
    assert a[|base|..] == name && b[|base|..] == other;
    assert (a + ['/'])[|a|] == '/';
    if |a| < |b| {
      assert b[|a|] == other[|name|];
    }
  }

  lemma ChildOfNamespace(root: string, name: string, sub: string)
    requires Rooted(root) && Clean(root) == root && Accepted(name) && PlainName(sub)
    ensures var dir := NamespaceDir(root, name).value;
            JoinPath(dir, sub) == dir + "/" + sub && Elements(JoinPath(dir, sub)) == Elements(root) + [name, sub]
  {
    NamespaceIsChild(root, name);
    var dir := NamespaceDir(root, name).value;
    JoinPlain(dir, sub);
    assert dir != "/" by {
      assert dir[|dir| - 1] == name[|name| - 1];
      AcceptedIsPlain(name);
    }
    assert Elements(root) + [name] + [sub] == Elements(root) + [name, sub];
  }

  const CONTEXTQ := "contextq"

  /** The command's data root lies strictly inside the directory of its own namespace. */
  lemma ContextqInside(root: string, name: string)
    requires Rooted(root) && Clean(root) == root && Accepted(name)
    ensures var dir := NamespaceDir(root, name).value;
            ContextqRoot(root, name) == Some(dir + "/" + CONTEXTQ)
            && Elements(dir + "/" + CONTEXTQ) == Elements(root) + [name, CONTEXTQ]
            && CONTEXTQ == "contextq"
  {
    ChildOfNamespace(root, name, CONTEXTQ);
  }

  /** Every text of these characters that starts with a letter or digit is accepted, up to 63 of them. */
  lemma NamesAccepted(name: string)
    requires 1 <= |name| <= 63 && name[0] != '.' && name[0] != '_' && name[0] != '-'
    requires forall c :: c in name ==> 'A' <= c <= 'Z' || 'a' <= c <= 'z' || '0' <= c <= '9' || c == '.' || c == '_' || c == '-'
    ensures Accepted(name)
  {
    assert name[0] in name;
    assert forall i :: 1 <= i < |name| ==> name[i] in name;
  }

  /** A file of one namespace is not a file of another. */
  lemma FilesDisjoint(root: string, name: string, other: string, file: string, file': string)
    requires Rooted(root) && Clean(root) == root && Accepted(name) && Accepted(other) && name != other
    requires PlainName(file) && PlainName(file')
    ensures JoinPath(NamespaceDir(root, name).value, file) != JoinPath(NamespaceDir(root, other).value, file')
  {
    NamespaceIsChild(root, name);
    NamespaceIsChild(root, other);
    JoinPlain(NamespaceDir(root, name).value, file);
    JoinPlain(NamespaceDir(root, other).value, file');
    var a, b := Elements(root) + [name] + [file], Elements(root) + [other] + [file'];
    assert a[|Elements(root)|] == name && b[|Elements(root)|] == other;
  }
}
