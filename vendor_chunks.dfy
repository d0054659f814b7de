/** The build's rule for splitting third-party modules into separate output chunks. */
module VendorChunks {
  import opened Wrappers
  import opened Text

  const NodeModules: string := "node_modules"
  const ThreeChunk: string := "three"
  const VendorChunk: string := "vendor"

  /** `manualChunks(id)`: the chunk a module goes to, or `None` (`undefined`) to leave it to the bundler. */
  function ManualChunks(id: string): Option<string>
  {
    if Includes(id, NodeModules) then
      if Includes(id, "three") then Some(ThreeChunk)
      else Some(VendorChunk)
    else None
  }

  /** The three outcomes, each with the exact condition that selects it. */
  lemma ManualChunksCases(id: string)
    ensures ManualChunks(id) == None <==> !(exists i :: OccursAt(id, NodeModules, i))
    ensures ManualChunks(id) == Some(ThreeChunk) <==>
      (exists i :: OccursAt(id, NodeModules, i)) && (exists j :: OccursAt(id, "three", j))
    ensures ManualChunks(id) == Some(VendorChunk) <==>
      (exists i :: OccursAt(id, NodeModules, i)) && !(exists j :: OccursAt(id, "three", j))
  {
  }

  /** No other chunk name is ever produced. */
  lemma ManualChunksRange(id: string)
    ensures ManualChunks(id) in {None, Some(ThreeChunk), Some(VendorChunk)}
  {
  }

  /** The result depends on nothing but the two substring tests. */
  lemma ManualChunksDependsOnTests(a: string, b: string)
    requires Includes(a, NodeModules) == Includes(b, NodeModules)
    requires Includes(a, "three") == Includes(b, "three")
    ensures ManualChunks(a) == ManualChunks(b)
  {
  }

  /** Any module of the `three` package lands in the 'three' chunk. */
  lemma ThreePackageChunk(id: string)
    requires Includes(id, "node_modules/three/")
    ensures ManualChunks(id) == Some(ThreeChunk)
  {
    assert "node_modules/three/" == NodeModules + "/" + "three" + "/";
    IncludesParts(id, NodeModules + "/" + "three", "/");
    IncludesParts(id, NodeModules + "/", "three");
    IncludesParts(id, NodeModules, "/");
  }

  /**
   * The 'three' test looks at the whole path, so any dependency whose package
   * name mentions "three", such as `@react-three/fiber`, also lands in the
   * 'three' chunk rather than in 'vendor'.
   */
  lemma ThreeNamedPackageChunk(prefix: string, package: string, rest: string)
    requires Includes(package, "three")
    ensures ManualChunks(prefix + NodeModules + "/" + package + rest) == Some(ThreeChunk)
  {
    var id := prefix + NodeModules + "/" + package + rest;
    assert Includes(NodeModules, NodeModules) by {
      assert OccursAt(NodeModules, NodeModules, 0);
    }
    IncludesInfix(prefix, NodeModules, "/" + package + rest, NodeModules);
    assert id == prefix + NodeModules + ("/" + package + rest);
    IncludesInfix(prefix + NodeModules + "/", package, rest, "three");
  }

  lemma ReactThreeFiberChunk(prefix: string, rest: string)
    ensures ManualChunks(prefix + NodeModules + "/" + "@react-three/fiber" + rest) == Some(ThreeChunk)
  {
    assert "@react-three/fiber"[7..12] == "three";
    assert OccursAt("@react-three/fiber", "three", 7);
    ThreeNamedPackageChunk(prefix, "@react-three/fiber", rest);
  }

  /** A module outside `node_modules` is never assigned a chunk. */
  lemma AppModulesGetNoChunk(id: string)
    requires forall i :: !OccursAt(id, NodeModules, i)
    ensures ManualChunks(id) == None
  {
  }
}
