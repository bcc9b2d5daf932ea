/** The recursive merge of configuration values: dictionaries merge key by key, anything else is replaced
    by the override. */
module DeepMerge {

  datatype Value = Leaf(text: string) | Dict(entries: map<string, Value>)

  datatype Option<T> = None | Some(value: T)

  /** What a merge must produce. */
  function Merged(base: map<string, Value>, override: map<string, Value>): map<string, Value>
    decreases Dict(override)
  {
    map k | k in base.Keys + override.Keys ::
      if k !in override then base[k]
      else if k in base && base[k].Dict? && override[k].Dict? then Dict(Merged(base[k].entries, override[k].entries))
      else override[k]
  }

  lemma MergedKey(base: map<string, Value>, override: map<string, Value>, k: string)
    requires k in override
    ensures k in Merged(base, override)
    ensures Merged(base, override)[k] ==
            if k in base && base[k].Dict? && override[k].Dict? then Dict(Merged(base[k].entries, override[k].entries))
            else override[k]
  {
  }

  lemma MergedElsewhere(base: map<string, Value>, override: map<string, Value>)
    ensures Merged(base, override).Keys == base.Keys + override.Keys
    ensures forall k <- base :: k !in override ==> Merged(base, override)[k] == base[k]
  {
  }

  /** The merge is done for the override's keys outside `rest`. */
  ghost predicate DoneBut(base: map<string, Value>, override: map<string, Value>, rest: set<string>, result: map<string, Value>) {
    var merged := Merged(base, override);
    && (forall k <- result :: k in base || (k in override && k !in rest))
    && (forall k <- base :: k in result && (k in rest || k !in override ==> result[k] == base[k]))
    && (forall k <- override :: k !in rest ==> k in result && result[k] == merged[k])
  }

  lemma NothingDone(base: map<string, Value>, override: map<string, Value>)
    ensures DoneBut(base, override, override.Keys, base)
  {
    hide Merged;
  }

  lemma OneMore(base: map<string, Value>, override: map<string, Value>, rest: set<string>, result: map<string, Value>, key: string)
    requires DoneBut(base, override, rest, result) && key in rest && key in override
    ensures DoneBut(base, override, rest - {key}, result[key := Merged(base, override)[key]])
    ensures key in result <==> key in base
    ensures key in base ==> result[key] == base[key]
  {
    MergedKey(base, override, key);
    hide Merged;
  }

  lemma AllDone(base: map<string, Value>, override: map<string, Value>, result: map<string, Value>)
    requires DoneBut(base, override, {}, result)
    ensures result == Merged(base, override)
  {
    MergedElsewhere(base, override);
    hide Merged;
    assert result.Keys == base.Keys + override.Keys;
  }

  /** The merge over a copy of the base; the arguments stay as they are. */
  method Merge(base: map<string, Value>, override: map<string, Value>) returns (result: map<string, Value>)
    ensures result == Merged(base, override)
    decreases Dict(override)
  {
    hide Merged, DoneBut;
    result := base;
    var rest := override.Keys;
    NothingDone(base, override);
    while rest != {}
      invariant rest <= override.Keys && DoneBut(base, override, rest, result)
      decreases rest
    {
      var key :| key in rest;
      var value := override[key];
      OneMore(base, override, rest, result, key);
      MergedKey(base, override, key);
      rest := rest - {key};
      if key in result && result[key].Dict? && value.Dict? {
        var inner := Merge(result[key].entries, value.entries);
        result := result[key := Dict(inner)];
      } else {
        result := result[key := value];
      }
    }
    AllDone(base, override, result);
  }

  // ---------------------------------------------------------------------------
  // The path law
  // ---------------------------------------------------------------------------

  /** What a path of keys leads to. */
  function Lookup(v: Value, path: seq<string>): Option<Value>
    decreases |path|
  {
    if path == [] then Some(v)
    else if v.Dict? && path[0] in v.entries then Lookup(v.entries[path[0]], path[1..])
    else None
  }

  predicate DictAt(v: Value, path: seq<string>) {
    Lookup(v, path).Some? && Lookup(v, path).value.Dict?
  }

  /** Both values are dictionaries at the first `n` steps of a path. */
  predicate BothDicts(base: Value, override: Value, path: seq<string>, n: nat)
    requires n <= |path|
  {
    forall i :: 0 <= i <= n ==> DictAt(base, path[..i]) && DictAt(override, path[..i])
  }

  /** The law at one path: where both have dictionaries all the way they are merged; at the first step where
      the override is silent the base survives below it; at the first step where the override speaks and
      the two are not both dictionaries the override wins below it. */
  ghost predicate PathLaw(base: map<string, Value>, override: map<string, Value>, path: seq<string>) {
    var b, o, found := Dict(base), Dict(override), Lookup(Dict(Merged(base, override)), path);
    && (BothDicts(b, o, path, |path|) && DictAt(b, path) && DictAt(o, path) ==>
          found == Some(Dict(Merged(Lookup(b, path).value.entries, Lookup(o, path).value.entries))))
    && (forall n :: 0 <= n < |path| && BothDicts(b, o, path, n) && Lookup(o, path[..n + 1]).None? ==>
          found == Lookup(b, path))
    && (forall n ::
          (0 <= n < |path| && BothDicts(b, o, path, n) && Lookup(o, path[..n + 1]).Some?
           && !(DictAt(b, path[..n + 1]) && DictAt(o, path[..n + 1]))) ==> found == Lookup(o, path))
  }

  /** Going one step down a path. */
  lemma StepDown(v: Value, path: seq<string>, i: nat)
    requires 0 < i <= |path|
    ensures Lookup(v, path[..i]) ==
            if v.Dict? && path[0] in v.entries then Lookup(v.entries[path[0]], path[1..][..i - 1]) else None
  {
    assert path[..i][1..] == path[1..][..i - 1];
  }

  lemma BothStepDown(base: Value, override: Value, path: seq<string>, n: nat)
    requires 0 < n <= |path| && BothDicts(base, override, path, n)
    ensures base.Dict? && override.Dict? && path[0] in base.entries && path[0] in override.entries
    ensures base.entries[path[0]].Dict? && override.entries[path[0]].Dict?
    ensures BothDicts(base.entries[path[0]], override.entries[path[0]], path[1..], n - 1)
  {
    assert DictAt(base, path[..1]) && DictAt(override, path[..1]);
    StepDown(base, path, 1);
    StepDown(override, path, 1);
    forall i | 0 <= i <= n - 1
      ensures DictAt(base.entries[path[0]], path[1..][..i]) && DictAt(override.entries[path[0]], path[1..][..i])
    {
      assert DictAt(base, path[..i + 1]) && DictAt(override, path[..i + 1]);
      StepDown(base, path, i + 1);
      StepDown(override, path, i + 1);
    }
  }

  /** The merge obeys the law at every depth. */
  lemma {:induction false} PathLawHolds(base: map<string, Value>, override: map<string, Value>, path: seq<string>)
    ensures PathLaw(base, override, path)
    decreases |path|
  {
    if path != [] {
      var k, b, o := path[0], Dict(base), Dict(override);
      if k in base && k in override && base[k].Dict? && override[k].Dict? {
        PathLawHolds(base[k].entries, override[k].entries, path[1..]);
      }
      WholeBelow(base, override, path);
      forall n | 0 <= n < |path| && BothDicts(b, o, path, n)
        ensures PathLawAt(base, override, path, n)
      {
        LawBelow(base, override, path, n);
      }
    }
  }

  ghost predicate PathLawAt(base: map<string, Value>, override: map<string, Value>, path: seq<string>, n: nat)
    requires n < |path|
  {
    var b, o, found := Dict(base), Dict(override), Lookup(Dict(Merged(base, override)), path);
    && (Lookup(o, path[..n + 1]).None? ==> found == Lookup(b, path))
    && ((Lookup(o, path[..n + 1]).Some? && !(DictAt(b, path[..n + 1]) && DictAt(o, path[..n + 1])))
        ==> found == Lookup(o, path))
  }

  lemma WholeBelow(base: map<string, Value>, override: map<string, Value>, path: seq<string>)
    requires path != []
    requires var k := path[0];
             k in base && k in override && base[k].Dict? && override[k].Dict? ==>
             PathLaw(base[k].entries, override[k].entries, path[1..])
    ensures var b, o := Dict(base), Dict(override);
            BothDicts(b, o, path, |path|) && DictAt(b, path) && DictAt(o, path) ==>
            Lookup(Dict(Merged(base, override)), path)
            == Some(Dict(Merged(Lookup(b, path).value.entries, Lookup(o, path).value.entries)))
  {
    if BothDicts(Dict(base), Dict(override), path, |path|) {
      BothStepDown(Dict(base), Dict(override), path, |path|);
      assert DictAt(Dict(base), path[..|path|]) && path[..|path|] == path;
    }
  }

  lemma LawBelow(base: map<string, Value>, override: map<string, Value>, path: seq<string>, n: nat)
    requires n < |path| && BothDicts(Dict(base), Dict(override), path, n)
    requires var k := path[0];
             k in base && k in override && base[k].Dict? && override[k].Dict? ==>
             PathLaw(base[k].entries, override[k].entries, path[1..])
    ensures PathLawAt(base, override, path, n)
  {
    var b, o := Dict(base), Dict(override);
    StepDown(b, path, n + 1);
    StepDown(o, path, n + 1);
    if n > 0 {
      BothStepDown(b, o, path, n);
    } else {
      assert path[1..][..0] == [];
    }
  }

  /** Every path falls under one of the three cases of the law. */
  lemma {:induction false} LawCoversEveryPath(base: map<string, Value>, override: map<string, Value>, path: seq<string>, n: nat)
    requires n <= |path| && BothDicts(Dict(base), Dict(override), path, n)
    ensures var b, o := Dict(base), Dict(override);
            || BothDicts(b, o, path, |path|)
            || exists k :: 0 <= k < |path| && BothDicts(b, o, path, k)
                           && !(DictAt(b, path[..k + 1]) && DictAt(o, path[..k + 1]))
    decreases |path| - n
  {
    var b, o := Dict(base), Dict(override);
    if n < |path| && DictAt(b, path[..n + 1]) && DictAt(o, path[..n + 1]) {
      assert BothDicts(b, o, path, n + 1);
      LawCoversEveryPath(base, override, path, n + 1);
    }
  }

  // ---------------------------------------------------------------------------
  // Idempotence
  // ---------------------------------------------------------------------------

  lemma {:induction false} MergedWithItself(m: map<string, Value>)
    ensures Merged(m, m) == m
    decreases Dict(m)
  {
    forall k | k in m && m[k].Dict? ensures Merged(m[k].entries, m[k].entries) == m[k].entries {
      MergedWithItself(m[k].entries);
    }
  }

  /** Applying the same override twice is applying it once. */
  lemma {:induction false} OverrideTwice(base: map<string, Value>, override: map<string, Value>)
    ensures Merged(Merged(base, override), override) == Merged(base, override)
    decreases Dict(override)
  {
    var once := Merged(base, override);
    var twice := Merged(once, override);
    forall k | k in once ensures twice[k] == once[k] {
      if k in override && override[k].Dict? {
        if k in base && base[k].Dict? {
          OverrideTwice(base[k].entries, override[k].entries);
        } else {
          MergedWithItself(override[k].entries);
        }
      }
    }
    assert twice.Keys == once.Keys;
  }
}
