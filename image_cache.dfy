/** Finding an image file for an id and loading it, with the plugin's three
    caches: id to resolved path (hits only), path to load handle (stored as
    soon as the decode starts, so a path is decoded at most once), and path
    to decoded size. The vault and the decoder are parameters: the vault may
    gain files between calls, which is why a miss is not remembered. */
module ImageCache {
  import opened Wrappers
  import opened Text

  datatype Size = Size(w: nat, h: nat)

  /** What a load produced: the decoded size, or `None` for a rejected decode. */
  datatype Handle = Handle(path: String, decoded: Option<Size>)

  /** The extensions tried, in order. */
  const Extensions: seq<String> := [".webp", ".png", ".jpg", ".jpeg"]

  function Candidate(id: String, i: nat): String
    requires i < |Extensions|
  {
    "gfx/" + id + Extensions[i]
  }

  /** Probing from extension `i` on: the first candidate the vault has, and
      how many lookups were made in all (counting the `i` before). */
  function ProbeFrom(id: String, vault: String -> bool, i: nat): (Option<String>, nat)
    requires i <= |Extensions|
    decreases |Extensions| - i
  {
    if i == |Extensions| then (None, i)
    else if vault(Candidate(id, i)) then (Some(Candidate(id, i)), i + 1)
    else ProbeFrom(id, vault, i + 1)
  }

  /** The caches as values; `probes` counts vault lookups and `decodes` the
      decodes started. */
  datatype Cache = Cache(paths: map<String, String>, loads: map<String, Handle>,
                         sizes: map<String, Size>, decodes: nat, probes: nat)

  const Empty := Cache(map[], map[], map[], 0, 0)

  /** `resolveImagePath`: a cached id answers at once; otherwise the
      extensions are probed and only a hit is cached. */
  function Resolve(c: Cache, id: String, vault: String -> bool): (Cache, Option<String>)
  {
    if id in c.paths then (c, Some(c.paths[id]))
    else
      var (found, n) := ProbeFrom(id, vault, 0);
      match found
      case None => (c.(probes := c.probes + n), None)
      case Some(p) => (c.(paths := c.paths[id := p], probes := c.probes + n), Some(p))
  }

  /** `loadImage`: a path already loading or loaded gives back its handle;
      otherwise a decode starts, its handle is stored, and a successful
      decode records the size. */
  function Load(c: Cache, path: String, decoder: String -> Option<Size>): (Cache, Handle)
  {
    if path in c.loads then (c, c.loads[path])
    else
      var d := decoder(path);
      var h := Handle(path, d);
      var sizes := if d.Some? then c.sizes[path := d.value] else c.sizes;
      (c.(loads := c.loads[path := h], sizes := sizes, decodes := c.decodes + 1), h)
  }

  /** What the caches keep true: one decode per stored handle, handles and
      sizes agree, and every cached path is a candidate of its id. */
  ghost predicate Coherent(c: Cache) {
    LoadsAgree(c.loads, c.sizes, c.decodes) && CandidatePaths(c.paths)
  }

  ghost predicate LoadsAgree(loads: map<String, Handle>, sizes: map<String, Size>, decodes: nat) {
    && decodes == |loads|
    && (forall p :: p in loads ==> loads[p].path == p)
    && (forall p :: p in sizes <==> p in loads && loads[p].decoded.Some?)
    && (forall p :: p in sizes ==> loads[p].decoded == Some(sizes[p]))
  }

  ghost predicate CandidatePaths(paths: map<String, String>) {
    forall id :: id in paths ==> exists i :: 0 <= i < |Extensions| && paths[id] == Candidate(id, i)
  }

  /** The plugin object's caches, updated in place. */
  class ImageStore {
    var paths: map<String, String>
    var loads: map<String, Handle>
    var sizes: map<String, Size>
    var decodes: nat
    var probes: nat

    function State(): Cache
      reads this
    {
      Cache(paths, loads, sizes, decodes, probes)
    }

    constructor()
      ensures State() == Empty
    {
      paths, loads, sizes, decodes, probes := map[], map[], map[], 0, 0;
    }

    method ResolveImagePath(id: String, vault: String -> bool) returns (r: Option<String>)
      modifies this
      ensures (State(), r) == Resolve(old(State()), id, vault)
    {
      if id in paths {
        return Some(paths[id]);
      }
      var i := 0;
      while i < |Extensions|
        invariant 0 <= i <= |Extensions|
        invariant probes == old(probes) + i
        invariant ProbeFrom(id, vault, i) == ProbeFrom(id, vault, 0)
        invariant State() == old(State()).(probes := probes)
      {
        var path := "gfx/" + id + Extensions[i];
        probes := probes + 1;
        if vault(path) {
          paths := paths[id := path];
          return Some(path);
        }
        i := i + 1;
      }
      return None;
    }

    method LoadImage(path: String, decoder: String -> Option<Size>) returns (h: Handle)
      modifies this
      ensures (State(), h) == Load(old(State()), path, decoder)
    {
      if path in loads {
        return loads[path];
      }
      decodes := decodes + 1;
      var d := decoder(path);
      h := Handle(path, d);
      loads := loads[path := h];
      if d.Some? {
        sizes := sizes[path := d.value];
      }
    }
  }

  // ---- Properties ----

  /** Probing returns the first candidate the vault has, having looked at it
      and every one before it; with no hit it has looked at all four. */
  lemma {:induction false} ProbeFirstHit(id: String, vault: String -> bool, i: nat)
    requires i <= |Extensions|
    ensures var (found, n) := ProbeFrom(id, vault, i);
      && (found.None? <==> forall k :: i <= k < |Extensions| ==> !vault(Candidate(id, k)))
      && (found.None? ==> n == |Extensions|)
      && (found.Some? ==>
            && i < n <= |Extensions| && found.value == Candidate(id, n - 1)
            && vault(found.value) && forall k :: i <= k < n - 1 ==> !vault(Candidate(id, k)))
    decreases |Extensions| - i
  {
    if i < |Extensions| && !vault(Candidate(id, i)) {
      ProbeFirstHit(id, vault, i + 1);
    }
  }

  /** The order matters: when both a `.webp` and a `.png` file exist, the
      `.webp` one is chosen after a single lookup. */
  lemma WebpFirst(id: String, vault: String -> bool)
    requires vault(Candidate(id, 0))
    ensures ProbeFrom(id, vault, 0) == (Some("gfx/" + id + ".webp"), 1)
  {
  }

  /** A cached id is answered without touching the vault or the caches. */
  lemma CachedIdIsNotProbed(c: Cache, id: String, vault: String -> bool)
    requires id in c.paths
    ensures Resolve(c, id, vault) == (c, Some(c.paths[id]))
  {
  }

  /** Once an id has resolved to a path, resolving it again, whatever the
      vault holds by then, gives the same path without a lookup and without
      changing the caches. */
  lemma ResolveTwice(c: Cache, id: String, vault: String -> bool, later: String -> bool)
    requires Resolve(c, id, vault).1.Some?
    ensures var (c1, r1) := Resolve(c, id, vault); Resolve(c1, id, later) == (c1, r1)
  {
    if id !in c.paths {
      CachedIdIsNotProbed(Resolve(c, id, vault).0, id, later);
    }
  }

  /** A miss looks at all four candidates and caches nothing. */
  lemma MissIsNotCached(c: Cache, id: String, vault: String -> bool)
    requires Resolve(c, id, vault).1.None?
    ensures Resolve(c, id, vault).0 == c.(probes := c.probes + |Extensions|)
    ensures id !in c.paths
  {
    ProbeFirstHit(id, vault, 0);
  }

  /** Because misses are not cached, a file added after a miss is found by
      the next lookup of the same id. */
  lemma MissIsRetried(c: Cache, id: String, vault: String -> bool, later: String -> bool, i: nat)
    requires Resolve(c, id, vault).1.None?
    requires i < |Extensions| && later(Candidate(id, i))
    ensures Resolve(Resolve(c, id, vault).0, id, later).1.Some?
  {
    ProbeFirstHit(id, vault, 0);
    ProbeFirstHit(id, later, 0);
  }

  /** A hit is a vault file named after the id, and it is cached. */
  lemma HitIsCached(c: Cache, id: String, vault: String -> bool)
    requires id !in c.paths && Resolve(c, id, vault).1.Some?
    ensures var (c', r) := Resolve(c, id, vault);
      vault(r.value) && c'.paths == c.paths[id := r.value]
      && exists i :: 0 <= i < |Extensions| && r.value == Candidate(id, i)
  {
    ProbeFirstHit(id, vault, 0);
    var (found, n) := ProbeFrom(id, vault, 0);
    assert found.value == Candidate(id, n - 1);
  }

  /** Loading a path twice decodes it once and gives the same handle. */
  lemma LoadedOnce(c: Cache, path: String, decoder: String -> Option<Size>, decoder2: String -> Option<Size>)
    ensures var (c1, h1) := Load(c, path, decoder);
      var (c2, h2) := Load(c1, path, decoder2);
      c2 == c1 && h2 == h1 && c1.decodes == c.decodes + (if path in c.loads then 0 else 1)
  {
  }

  /** A failed decode is remembered too: the path is never decoded again. */
  lemma FailedDecodeIsNotRetried(c: Cache, path: String, decoder: String -> Option<Size>, later: String -> Option<Size>)
    requires Coherent(c) && path !in c.loads && decoder(path).None?
    ensures var (c1, h) := Load(c, path, decoder);
      && h.decoded.None? && path !in c1.sizes
      && Load(c1, path, later) == (c1, h)
  {
  }

  /** Neither operation removes or changes a cache entry. */
  ghost predicate Extends(c: Cache, d: Cache) {
    && (forall k :: k in c.paths ==> k in d.paths && d.paths[k] == c.paths[k])
    && (forall k :: k in c.loads ==> k in d.loads && d.loads[k] == c.loads[k])
    && (forall k :: k in c.sizes ==> k in d.sizes && d.sizes[k] == c.sizes[k])
    && c.decodes <= d.decodes && c.probes <= d.probes
  }

  lemma ResolveExtends(c: Cache, id: String, vault: String -> bool)
    ensures Extends(c, Resolve(c, id, vault).0)
  {
  }

  lemma LoadExtends(c: Cache, path: String, decoder: String -> Option<Size>)
    requires Coherent(c)
    ensures Extends(c, Load(c, path, decoder).0)
  {
  }

  /** Both operations keep the caches coherent. */
  lemma ResolveKeepsCoherent(c: Cache, id: String, vault: String -> bool)
    requires Coherent(c)
    ensures Coherent(Resolve(c, id, vault).0)
  {
    if id !in c.paths && Resolve(c, id, vault).1.Some? {
      HitIsCached(c, id, vault);
    }
  }

  lemma LoadKeepsCoherent(c: Cache, path: String, decoder: String -> Option<Size>)
    requires Coherent(c)
    ensures Coherent(Load(c, path, decoder).0)
    ensures var (c1, h) := Load(c, path, decoder);
      h.path == path && (h.decoded.Some? <==> path in c1.sizes) && (path in c1.sizes ==> h.decoded == Some(c1.sizes[path]))
  {
    if path !in c.loads {
      StoreHandle(c.loads, c.sizes, c.decodes, path, decoder(path));
    }
  }

  /** Storing a fresh handle, and its size when it decoded, keeps the loads
      and the sizes in agreement. */
  lemma StoreHandle(loads: map<String, Handle>, sizes: map<String, Size>, decodes: nat,
                    path: String, d: Option<Size>)
    requires LoadsAgree(loads, sizes, decodes) && path !in loads
    ensures LoadsAgree(loads[path := Handle(path, d)], if d.Some? then sizes[path := d.value] else sizes,
                       decodes + 1)
  {
    var loads1 := loads[path := Handle(path, d)];
    var sizes1 := if d.Some? then sizes[path := d.value] else sizes;
    assert |loads1| == |loads| + 1;
    assert forall p :: p in loads1 ==> loads1[p].path == p;
    if d.Some? {
      assert forall p :: p in sizes1 <==> p in loads1 && loads1[p].decoded.Some?;
      assert forall p :: p in sizes1 ==> loads1[p].decoded == Some(sizes1[p]);
    } else {
      assert forall p :: p in sizes1 <==> p in loads1 && loads1[p].decoded.Some?;
      assert forall p :: p in sizes1 ==> loads1[p].decoded == Some(sizes1[p]);
    }
  }
}
