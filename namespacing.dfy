/** Catalog-wide tool names: `serverId + "__" + toolName`, parsed back by splitting on the first `__`. */
module Namespacing {
  import opened Wrappers
  import opened Strings

  const Separator: string := "__"

  /** The name under which a server's tool is exposed to the reasoning backend. */
  function Namespaced(serverId: string, toolName: string): string {
    serverId + Separator + toolName
  }

  /** `s` contains no `__`. */
  predicate NoSeparator(s: string) {
    forall i :: 0 <= i < |s| - 1 ==> !(s[i] == '_' && s[i + 1] == '_')
  }

  /** A server id that splitting on the first `__` gives back whole: no `__` inside and no trailing `_`. */
  predicate SplittableId(id: string) {
    NoSeparator(id) && (id == [] || id[|id| - 1] != '_')
  }

  lemma OccursSeparator(s: string, i: int)
    ensures OccursAt(s, Separator, i) <==> 0 <= i && i + 1 < |s| && s[i] == '_' && s[i + 1] == '_'
  {
    if 0 <= i && i + 1 < |s| {
      assert s[i..i + 2] == [s[i], s[i + 1]];
    }
  }

  /** `callTool`'s parse (MCPClientManager.ts): `None` when there is no `__`, else the prefix before the
      first `__` and the remainder after it. */
  function SplitNamespaced(name: string): (r: Option<(string, string)>)
    ensures r.None? <==> !Contains(name, Separator)
  {
    var k := IndexOf(name, Separator, 0);
    if k < 0 then None else Some((name[..k], name[k + 2..]))
  }

  /** `name.split('__')[0]`: the prefix before the first `__`, or the whole name when there is none. */
  function ServerIdOf(name: string): (r: string)
    ensures r == match SplitNamespaced(name) { case None => name case Some(p) => p.0 }
  {
    var k := IndexOf(name, Separator, 0);
    if k < 0 then name else name[..k]
  }

  /** Splitting recovers the pair a namespaced name was built from, for every tool name,
      whenever the server id is splittable. */
  lemma SplitNamespacedRoundTrip(serverId: string, toolName: string)
    requires SplittableId(serverId)
    ensures SplitNamespaced(Namespaced(serverId, toolName)) == Some((serverId, toolName))
    ensures ServerIdOf(Namespaced(serverId, toolName)) == serverId
  {
    var s := Namespaced(serverId, toolName);
    var n := |serverId|;
    OccursSeparator(s, n);
    forall i | 0 <= i < n ensures !OccursAt(s, Separator, i) {
      OccursSeparator(s, i);
      if i + 1 < n {
        assert s[i] == serverId[i] && s[i + 1] == serverId[i + 1];
      } else {
        assert s[i] == serverId[n - 1];
      }
    }
    var k := IndexOf(s, Separator, 0);
    assert k == n;
    assert s[..n] == serverId;
    assert s[n + 2..] == toolName;
  }

  /** Conversely, every successful split names a splittable id and rebuilds the input exactly, so
      splitting is a bijection between names containing `__` and pairs with a splittable id. */
  lemma SplitNamespacedSound(name: string)
    ensures match SplitNamespaced(name)
      case None => true
      case Some(p) => SplittableId(p.0) && Namespaced(p.0, p.1) == name
  {
    var k := IndexOf(name, Separator, 0);
    if k >= 0 {
      var id := name[..k];
      OccursSeparator(name, k);
      forall i | 0 <= i < |id| - 1 ensures !(id[i] == '_' && id[i + 1] == '_') {
        OccursSeparator(name, i);
      }
      if id != [] {
        OccursSeparator(name, k - 1);
      }
      assert name[k..k + 2] == Separator;
      assert id + Separator + name[k + 2..] == name;
    }
  }
}
