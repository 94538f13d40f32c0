/**
 * The package.json rewrite of the library build: drop the development-only
 * keys and pin `main`, `module` and `types` to the bundle's files. Reading and
 * writing the files are outside the model.
 */
module PackageJson {
  import opened Wrappers
  import opened Json

  /** One key of a parsed JSON object, in source order. */
  datatype Entry = Entry(key: string, value: Json)

  /** A parsed `package.json`: its entries in the order `JSON.stringify` writes them. */
  type Package = seq<Entry>

  function Keys(p: Package): set<string> {
    if p == [] then {} else {p[0].key} + Keys(p[1..])
  }

  /** `JSON.parse` never yields a key twice. */
  predicate UniqueKeys(p: Package) {
    p == [] || (p[0].key !in Keys(p[1..]) && UniqueKeys(p[1..]))
  }

  lemma {:induction false} KeysAppend(p: Package, q: Package)
    ensures Keys(p + q) == Keys(p) + Keys(q)
    ensures UniqueKeys(p + q) <== UniqueKeys(p) && UniqueKeys(q) && Keys(p) !! Keys(q)
    decreases |p|
  {
    if p == [] {
      assert p + q == q;
    } else {
      assert (p + q)[1..] == p[1..] + q;
      KeysAppend(p[1..], q);
    }
  }

  /** `pkg[key]` */
  function Lookup(p: Package, key: string): Option<Json> {
    if p == [] then None
    else if p[0].key == key then Some(p[0].value)
    else Lookup(p[1..], key)
  }

  /** `delete pkg[k]` for every `k` in `ks`, keeping the order of the rest. */
  function Without(p: Package, ks: set<string>): (r: Package)
    ensures Keys(r) == Keys(p) - ks
    ensures UniqueKeys(p) ==> UniqueKeys(r)
  {
    if p == [] then []
    else
      var rest := Without(p[1..], ks);
      if p[0].key in ks then rest
      else
        assert ([p[0]] + rest)[1..] == rest;
        [p[0]] + rest
  }

  /** `pkg[key] = value`: replaced where the key stands, appended when it is new. */
  function Assign(p: Package, key: string, value: Json): (r: Package)
    ensures key !in Keys(p) ==> r == p + [Entry(key, value)]
    ensures Keys(r) == Keys(p) + {key}
  {
    if p == [] then [Entry(key, value)]
    else if p[0].key == key then
      assert ([Entry(key, value)] + p[1..])[1..] == p[1..];
      [Entry(key, value)] + p[1..]
    else
      var rest := Assign(p[1..], key, value);
      assert ([p[0]] + rest)[1..] == rest;
      assert key !in Keys(p) ==> rest == p[1..] + [Entry(key, value)] && p == [p[0]] + p[1..];
      [p[0]] + rest
  }

  /** The keys the rewrite deletes. */
  const Dropped: set<string> := {"main", "module", "types", "exports", "devDependencies", "scripts",
                                 "lint-staged", "config", "packageManager"}

  /** The entries the rewrite appends, in this order. */
  const Pinned: Package := [Entry("main", JStr("index.js")), Entry("module", JStr("index.mjs")),
                            Entry("types", JStr("index.d.ts"))]

  /** The rewritten package: the kept entries in their order, then the pinned ones. */
  function Rewritten(p: Package): Package {
    Without(p, Dropped) + Pinned
  }

  lemma {:induction false} WithoutStep(p: Package, ks: set<string>, k: string)
    ensures Without(Without(p, ks), {k}) == Without(p, ks + {k})
    decreases |p|
  {
    if p != [] {
      WithoutStep(p[1..], ks, k);
    }
  }

  lemma {:induction false} WithoutNothing(p: Package)
    ensures Without(p, {}) == p
    decreases |p|
  {
    if p != [] {
      WithoutNothing(p[1..]);
    }
  }

  /** `Dropped` is the keys of the nine `delete` statements, in their order. */
  lemma DroppedInOrder()
    ensures {} + {"main"} + {"module"} + {"types"} + {"exports"} + {"devDependencies"} + {"scripts"}
            + {"lint-staged"} + {"config"} + {"packageManager"} == Dropped
  {
  }

  /** The nine `delete` statements of `copyPackageJsonFn`, one at a time. */
  method DeleteDropped(pkg: Package) returns (p: Package)
    ensures p == Without(pkg, Dropped)
  {
    ghost var gone: set<string> := {};
    WithoutNothing(pkg);
    p := pkg;
    WithoutStep(pkg, gone, "main");
    p, gone := Without(p, {"main"}), gone + {"main"};
    WithoutStep(pkg, gone, "module");
    p, gone := Without(p, {"module"}), gone + {"module"};
    WithoutStep(pkg, gone, "types");
    p, gone := Without(p, {"types"}), gone + {"types"};
    WithoutStep(pkg, gone, "exports");
    p, gone := Without(p, {"exports"}), gone + {"exports"};
    WithoutStep(pkg, gone, "devDependencies");
    p, gone := Without(p, {"devDependencies"}), gone + {"devDependencies"};
    WithoutStep(pkg, gone, "scripts");
    p, gone := Without(p, {"scripts"}), gone + {"scripts"};
    WithoutStep(pkg, gone, "lint-staged");
    p, gone := Without(p, {"lint-staged"}), gone + {"lint-staged"};
    WithoutStep(pkg, gone, "config");
    p, gone := Without(p, {"config"}), gone + {"config"};
    WithoutStep(pkg, gone, "packageManager");
    p, gone := Without(p, {"packageManager"}), gone + {"packageManager"};
    DroppedInOrder();
  }

  /** `copyPackageJsonFn` between reading and writing the file: the deletions, then the three assignments. */
  method CopyPackageJson(pkg: Package) returns (out: Package)
    ensures out == Rewritten(pkg)
  {
    var p := DeleteDropped(pkg);
    ghost var kept := p;
    p := Assign(p, "main", JStr("index.js"));
    assert p == kept + Pinned[..1];
    p := Assign(p, "module", JStr("index.mjs"));
    assert p == kept + Pinned[..2];
    p := Assign(p, "types", JStr("index.d.ts"));
    assert p == kept + Pinned;
    out := p;
  }

  // ---------------------------------------------------------------------------
  // Properties of the rewrite

  lemma {:induction false} LookupWithout(p: Package, ks: set<string>, key: string)
    requires key !in ks
    ensures Lookup(Without(p, ks), key) == Lookup(p, key)
    decreases |p|
  {
    if p != [] {
      LookupWithout(p[1..], ks, key);
    }
  }

  lemma {:induction false} LookupAppend(p: Package, q: Package, key: string)
    ensures key !in Keys(p) ==> Lookup(p + q, key) == Lookup(q, key)
    ensures key in Keys(p) ==> Lookup(p + q, key) == Lookup(p, key)
    decreases |p|
  {
    if p != [] {
      assert (p + q)[1..] == p[1..] + q;
      LookupAppend(p[1..], q, key);
    } else {
      assert p + q == q;
    }
  }

  lemma {:induction false} LookupMissing(p: Package, key: string)
    requires key !in Keys(p)
    ensures Lookup(p, key) == None
    decreases |p|
  {
    if p != [] {
      LookupMissing(p[1..], key);
    }
  }

  /** The output has exactly the input keys minus the dropped ones, plus `main`, `module` and `types`, each once. */
  lemma RewrittenKeys(p: Package)
    ensures Keys(Rewritten(p)) == (Keys(p) - Dropped) + {"main", "module", "types"}
    ensures UniqueKeys(p) ==> UniqueKeys(Rewritten(p))
    ensures forall k :: k in Dropped - {"main", "module", "types"} ==> k !in Keys(Rewritten(p))
  {
    assert Keys(Pinned) == {"main", "module", "types"} by {
      assert Pinned[1..][1..][1..] == [];
    }
    assert UniqueKeys(Pinned) by {
      assert Pinned[1..][1..][1..] == [];
    }
    KeysAppend(Without(p, Dropped), Pinned);
  }

  /** `main`, `module` and `types` always point at the bundle, whatever the input said. */
  lemma RewrittenPinsEntryPoints(p: Package)
    ensures Lookup(Rewritten(p), "main") == Some(JStr("index.js"))
    ensures Lookup(Rewritten(p), "module") == Some(JStr("index.mjs"))
    ensures Lookup(Rewritten(p), "types") == Some(JStr("index.d.ts"))
  {
    LookupAppend(Without(p, Dropped), Pinned, "main");
    LookupAppend(Without(p, Dropped), Pinned, "module");
    LookupAppend(Without(p, Dropped), Pinned, "types");
  }

  /** Every key the rewrite does not touch keeps its value. */
  lemma RewrittenKeepsOthers(p: Package, key: string)
    requires key !in Dropped
    ensures Lookup(Rewritten(p), key) == Lookup(p, key)
  {
    LookupWithout(p, Dropped, key);
    LookupAppend(Without(p, Dropped), Pinned, key);
    if key !in Keys(Without(p, Dropped)) {
      LookupMissing(Without(p, Dropped), key);
      assert key !in Keys(Pinned);
      LookupMissing(Pinned, key);
    }
  }

  lemma {:induction false} WithoutAppend(p: Package, q: Package, ks: set<string>)
    ensures Without(p + q, ks) == Without(p, ks) + Without(q, ks)
    decreases |p|
  {
    if p == [] {
      assert p + q == q;
    } else {
      assert (p + q)[1..] == p[1..] + q;
      WithoutAppend(p[1..], q, ks);
    }
  }

  lemma {:induction false} WithoutIdempotent(p: Package, ks: set<string>)
    ensures Without(Without(p, ks), ks) == Without(p, ks)
    decreases |p|
  {
    if p != [] {
      WithoutIdempotent(p[1..], ks);
    }
  }

  /** Rewriting an already rewritten package changes nothing. */
  lemma RewrittenIdempotent(p: Package)
    ensures Rewritten(Rewritten(p)) == Rewritten(p)
  {
    WithoutAppend(Without(p, Dropped), Pinned, Dropped);
    WithoutIdempotent(p, Dropped);
    assert Without(Pinned, Dropped) == [];
  }
}
