/**
 * Management-command discovery (awx/__init__.py, `find_commands`): the names of the
 * modules in a `commands` directory, accepting compiled `.pyc` files as well as `.py`.
 * The directory listing is a parameter; `None` stands for `os.listdir` raising `OSError`.
 */
module Commands {
  import opened Wrappers

  predicate StartsWith(s: string, prefix: string) {
    |prefix| <= |s| && s[..|prefix|] == prefix
  }

  predicate EndsWith(s: string, suffix: string) {
    |suffix| <= |s| && s[|s| - |suffix|..] == suffix
  }

  /**
   * The command name one directory entry contributes: none for a private entry
   * (leading underscore), the entry without its extension for a `.py` or `.pyc` file.
   */
  function Stem(f: string): (r: Option<string>)
    ensures r.Some? <==> !StartsWith(f, "_") && (EndsWith(f, ".py") || EndsWith(f, ".pyc"))
    ensures r.Some? ==> f == r.value + ".py" || f == r.value + ".pyc"
  {
    if StartsWith(f, "_") then None
    else if EndsWith(f, ".py") then Some(f[..|f| - 3])
    else if EndsWith(f, ".pyc") then Some(f[..|f| - 4])
    else None
  }

  /** The accumulator after visiting `listing` in order: each new stem is appended once. */
  function Discovered(listing: seq<string>): (r: seq<string>)
    // At most one name per entry, and never a private one.
    ensures |r| <= |listing|
    ensures forall i :: 0 <= i < |r| ==> !StartsWith(r[i], "_")
  {
    if listing == [] then []
    else
      var before := Discovered(listing[..|listing| - 1]);
      var stem := Stem(listing[|listing| - 1]);
      if stem.Some? && stem.value !in before then before + [stem.value] else before
  }

  /** `find_commands(management_dir)`, given what `os.listdir` returned for its `commands` directory. */
  method FindCommands(listing: Option<seq<string>>) returns (commands: seq<string>)
    ensures listing.None? ==> commands == []
    ensures listing.Some? ==> commands == Discovered(listing.value)
  {
    commands := [];
    if listing.None? {
      return;
    }
    var entries := listing.value;
    for i := 0 to |entries|
      invariant commands == Discovered(entries[..i])
    {
      var f := entries[i];
      assert entries[..i + 1][..i] == entries[..i];
      assert EndsWith(f, ".py") ==> f[|f| - 1] == 'y';
      assert EndsWith(f, ".pyc") ==> f[|f| - 1] == 'c';
      if StartsWith(f, "_") {
        continue;
      } else if EndsWith(f, ".py") && f[..|f| - 3] !in commands {
        commands := commands + [f[..|f| - 3]];
      } else if EndsWith(f, ".pyc") && f[..|f| - 4] !in commands {
        commands := commands + [f[..|f| - 4]];
      }
    }
    assert entries[..|entries|] == entries;
  }

  /** Every discovered name is the stem of some entry of the listing. */
  lemma {:induction false} DiscoveredSound(listing: seq<string>)
    ensures forall n :: n in Discovered(listing) ==>
      exists i :: 0 <= i < |listing| && Stem(listing[i]) == Some(n)
  {
    if listing != [] {
      var init := listing[..|listing| - 1];
      DiscoveredSound(init);
      forall n | n in Discovered(listing)
        ensures exists i :: 0 <= i < |listing| && Stem(listing[i]) == Some(n)
      {
        if n in Discovered(init) {
          var i :| 0 <= i < |init| && Stem(init[i]) == Some(n);
          assert listing[i] == init[i];
        } else {
          assert Stem(listing[|listing| - 1]) == Some(n);
        }
      }
    }
  }

  /** Every stem in the listing is discovered. */
  lemma {:induction false} DiscoveredComplete(listing: seq<string>)
    ensures forall i :: 0 <= i < |listing| && Stem(listing[i]).Some? ==>
      Stem(listing[i]).value in Discovered(listing)
  {
    if listing != [] {
      var init := listing[..|listing| - 1];
      DiscoveredComplete(init);
      forall i | 0 <= i < |listing| && Stem(listing[i]).Some?
        ensures Stem(listing[i]).value in Discovered(listing)
      {
        if i < |init| {
          assert listing[i] == init[i];
        }
      }
    }
  }

  /** No command name is reported twice. */
  lemma {:induction false} DiscoveredDistinct(listing: seq<string>)
    ensures forall a, b :: 0 <= a < b < |Discovered(listing)| ==>
      Discovered(listing)[a] != Discovered(listing)[b]
  {
    if listing != [] {
      var before := Discovered(listing[..|listing| - 1]);
      DiscoveredDistinct(listing[..|listing| - 1]);
      var r := Discovered(listing);
      if |r| > |before| {
        forall a | 0 <= a < |before|
          ensures r[a] != r[|before|]
        {
          assert r[a] == before[a] && before[a] in before;
        }
      }
    }
  }

  /** Some entry yields `x` before any entry yields `y`. */
  predicate AppearsFirst(listing: seq<string>, x: string, y: string) {
    exists i :: 0 <= i < |listing| && Stem(listing[i]) == Some(x) &&
      forall j :: 0 <= j <= i ==> Stem(listing[j]) != Some(y)
  }

  /**
   * Names come in the order of their first appearance: for each earlier name there is
   * an entry producing it before any entry produces a later name.
   */
  lemma {:induction false} DiscoveredOrder(listing: seq<string>)
    ensures forall a, b :: 0 <= a < b < |Discovered(listing)| ==>
      AppearsFirst(listing, Discovered(listing)[a], Discovered(listing)[b])
  {
    if listing != [] {
      var init := listing[..|listing| - 1];
      var before := Discovered(init);
      var r := Discovered(listing);
      DiscoveredOrder(init);
      DiscoveredSound(init);
      DiscoveredComplete(init);
      forall a, b | 0 <= a < b < |r|
        ensures AppearsFirst(listing, r[a], r[b])
      {
        assert r[a] == before[a];
        if b < |before| {
          assert r[b] == before[b];
          assert AppearsFirst(init, before[a], before[b]);
          var i :| 0 <= i < |init| && Stem(init[i]) == Some(before[a]) &&
            forall j :: 0 <= j <= i ==> Stem(init[j]) != Some(before[b]);
          assert forall j :: 0 <= j <= i ==> listing[j] == init[j];
          assert Stem(listing[i]) == Some(r[a]);
        } else {
          assert before[a] in before;
          var i :| 0 <= i < |init| && Stem(init[i]) == Some(before[a]);
          forall j | 0 <= j <= i
            ensures Stem(listing[j]) != Some(r[b])
          {
            assert listing[j] == init[j];
          }
          assert listing[i] == init[i];
          assert Stem(listing[i]) == Some(r[a]);
        }
      }
    }
  }

  /**
   * What the discovery promises about its result: no private name, every name backed by a
   * `.py` or `.pyc` entry that is not private, every such entry represented, no duplicates.
   */
  lemma DiscoveredProperties(listing: seq<string>)
    ensures forall n :: n in Discovered(listing) ==> !StartsWith(n, "_")
    ensures forall n :: n in Discovered(listing) ==>
      exists i :: (0 <= i < |listing| && !StartsWith(listing[i], "_") &&
        (listing[i] == n + ".py" || listing[i] == n + ".pyc"))
    ensures forall i ::
      (0 <= i < |listing| && !StartsWith(listing[i], "_") &&
       (EndsWith(listing[i], ".py") || EndsWith(listing[i], ".pyc"))) ==>
      Stem(listing[i]).value in Discovered(listing)
    ensures forall a, b :: 0 <= a < b < |Discovered(listing)| ==>
      Discovered(listing)[a] != Discovered(listing)[b]
  {
    DiscoveredSound(listing);
    DiscoveredComplete(listing);
    DiscoveredDistinct(listing);
    forall n | n in Discovered(listing)
      ensures !StartsWith(n, "_")
      ensures exists i :: (0 <= i < |listing| && !StartsWith(listing[i], "_") &&
        (listing[i] == n + ".py" || listing[i] == n + ".pyc"))
    {
      var i :| 0 <= i < |listing| && Stem(listing[i]) == Some(n);
    }
  }

  /** A listing with a source file, a private file and a compiled file. */
  lemma DiscoveredExample()
    ensures Discovered(["foo.py", "_bar.py", "baz.pyc"]) == ["foo", "baz"]
  {
    var l := ["foo.py", "_bar.py", "baz.pyc"];
    assert Stem("foo.py") == Some("foo") by {
      assert "foo.py"[..1] == "f";
      assert "foo.py"[3..] == ".py";
      assert "foo.py"[..3] == "foo";
    }
    assert Stem("_bar.py") == None by {
      assert "_bar.py"[..1] == "_";
    }
    assert Stem("baz.pyc") == Some("baz") by {
      assert "baz.pyc"[..1] == "b";
      assert "baz.pyc"[4..] == "pyc";
      assert "baz.pyc"[3..] == ".pyc";
      assert "baz.pyc"[..3] == "baz";
    }
    assert Discovered(l[..1]) == ["foo"] by {
      assert l[..1][..0] == [];
    }
    assert Discovered(l[..2]) == ["foo"] by {
      assert l[..2][..1] == l[..1];
    }
    assert l[..3][..2] == l[..2];
    assert l[..3] == l;
  }
}
