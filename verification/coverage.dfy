/**
 * scripts/update-sys-coverage.py: merges the functions declared in the uEye C
 * headers with the functions bound in the Rust sources and renders a Markdown
 * checklist. The regular-expression scans that produce the function records
 * are not part of this model: the records are inputs.
 */
module Coverage {
  /** `FunctionMatch`: one function found in a header or a Rust file (`returnType` is the `returns` field). */
  datatype FunctionMatch = FunctionMatch(name: string, arguments: string, returnType: string, rust: bool)

  /**
   * `FunctionDict`: a Python `dict`, which remembers the order in which keys
   * were first inserted. `order` holds the keys in that order.
   */
  datatype FunctionDict = FunctionDict(order: seq<string>, entries: map<string, FunctionMatch>)
  {
    predicate Valid()
    {
      && (forall i, j :: 0 <= i < j < |order| ==> order[i] != order[j])
      && (forall k :: k in entries ==> k in order)
      && (forall k :: k in order ==> k in entries)
    }
  }

  /** How `main` ends: it returns an exit code, or a `KeyError` escapes it. */
  datatype Exit = Returned(code: int) | RaisedKeyError(key: string)

  /** The outcome of a computation that may raise `KeyError`. */
  datatype Outcome<T> = Ok(value: T) | KeyError(key: string)

  /** The names of a list of records, in order. */
  function Names(fns: seq<FunctionMatch>): (n: seq<string>)
    ensures |n| == |fns| && forall i :: 0 <= i < |fns| ==> n[i] == fns[i].name
  {
    seq(|fns|, i requires 0 <= i < |fns| => fns[i].name)
  }

  /** The position of the first occurrence of `x` in `s`. */
  function FirstIndex(s: seq<string>, x: string): (i: nat)
    requires x in s
    ensures i < |s| && s[i] == x && x !in s[..i]
  {
    if s[0] == x then 0 else 1 + FirstIndex(s[1..], x)
  }

  /**
   * `d[key] = value`: a new key goes to the end of the order, an existing key
   * gets the new value in its old position.
   */
  function Store(d: FunctionDict, key: string, value: FunctionMatch): (r: FunctionDict)
    requires d.Valid()
    ensures r.Valid()
    ensures r.entries == d.entries[key := value]
    ensures r.order == if key in d.entries then d.order else d.order + [key]
  {
    if key in d.entries then FunctionDict(d.order, d.entries[key := value])
    else FunctionDict(d.order + [key], d.entries[key := value])
  }

  /** The `fns` dict after the loop over the C records (`fns[c_fn.name] = c_fn`, in order). */
  function CollectC(cFns: seq<FunctionMatch>): (d: FunctionDict)
    ensures d.Valid()
  {
    if cFns == [] then FunctionDict([], map[])
    else
      var last := cFns[|cFns| - 1];
      Store(CollectC(cFns[..|cFns| - 1]), last.name, last)
  }

  /**
   * The loop over the Rust records: each name must already be a key (otherwise
   * `KeyError` for the first missing one), and its record gets `rust` set
   * while keeping the C name, arguments and return type.
   */
  function MarkRust(d: FunctionDict, rustFns: seq<FunctionMatch>): (r: Outcome<FunctionDict>)
    requires d.Valid()
    ensures r.Ok? ==> r.value.Valid()
    decreases |rustFns|
  {
    if rustFns == [] then Ok(d)
    else
      var key := rustFns[0].name;
      if key !in d.entries then KeyError(key)
      else
        var e := d.entries[key];
        MarkRust(Store(d, key, e.(rust := true)), rustFns[1..])
  }

  /**
   * The Rust loop on the entries alone: the same checks and updates as
   * `MarkRust`, with the order left out, since marking only reassigns keys
   * that are already present.
   */
  function MarkEntries(entries: map<string, FunctionMatch>, rustFns: seq<FunctionMatch>)
    : Outcome<map<string, FunctionMatch>>
    decreases |rustFns|
  {
    if rustFns == [] then Ok(entries)
    else
      var key := rustFns[0].name;
      if key !in entries then KeyError(key)
      else MarkEntries(entries[key := entries[key].(rust := true)], rustFns[1..])
  }

  /** `MarkRust` keeps the order and updates the entries as `MarkEntries` does. */
  lemma {:induction false} MarkRustEntries(d: FunctionDict, rustFns: seq<FunctionMatch>)
    requires d.Valid()
    ensures MarkRust(d, rustFns) == match MarkEntries(d.entries, rustFns)
      case Ok(e) => Ok(FunctionDict(d.order, e))
      case KeyError(key) => KeyError(key)
    decreases |rustFns|
  {
    if rustFns != [] && rustFns[0].name in d.entries {
      var key := rustFns[0].name;
      MarkRustEntries(Store(d, key, d.entries[key].(rust := true)), rustFns[1..]);
    }
  }

  /** The records of all Rust files, file after file. */
  function Flatten(files: seq<seq<FunctionMatch>>): (fns: seq<FunctionMatch>)
    ensures |files| > 0 ==> fns == files[0] + Flatten(files[1..])
  {
    if files == [] then [] else files[0] + Flatten(files[1..])
  }

  const CheckedPrefix: string := "* [x] "
  const UncheckedPrefix: string := "* [ ] **\U{26A0}**"

  /** The text `dump_fns_md` puts before the name: the checkbox, and the warning sign for a missing binding. */
  function LinePrefix(rust: bool): string
  {
    if rust then CheckedPrefix else UncheckedPrefix
  }

  /** The text of a checklist line after its prefix: name, arguments and return type, each in backticks. */
  function LineBody(name: string, fn: FunctionMatch): string
  {
    "`" + name + "` (`" + fn.arguments + "`) \U{21DD} `" + fn.returnType + "`\n"
  }

  /** The checklist line `dump_fns_md` renders for one entry. */
  function DumpLine(name: string, fn: FunctionMatch): string
  {
    LinePrefix(fn.rust) + LineBody(name, fn)
  }

  /**
   * The format of a checklist line: the prefix, then the name in backticks;
   * the line ends with a backtick and a newline.
   */
  lemma DumpLineFormat(name: string, fn: FunctionMatch)
    ensures var line := DumpLine(name, fn);
      |line| == |LinePrefix(fn.rust)| + |name| + |fn.arguments| + |fn.returnType| + 13
    ensures var line, p := DumpLine(name, fn), |LinePrefix(fn.rust)|;
      && line[..p] == LinePrefix(fn.rust)
      && line[p] == '`' && line[p + 1..p + 1 + |name|] == name && line[p + 1 + |name|] == '`'
      && line[|line| - 2..] == "`\n"
  {
    var body := LineBody(name, fn);
    assert body[1..1 + |name|] == name;
    assert body[|body| - 2..] == "`\n";
  }

  /**
   * The fields of a checklist line after the name: with `q` the position just
   * past "` (`", the arguments come first, then the arrow between backticks,
   * then the return type.
   */
  lemma DumpLineFields(name: string, fn: FunctionMatch)
    ensures var line, q := DumpLine(name, fn), |LinePrefix(fn.rust)| + |name| + 5;
      && line[q - 4..q] == "` (`" && line[q..q + |fn.arguments|] == fn.arguments
      && line[q + |fn.arguments|..q + |fn.arguments| + 6] == "`) \U{21DD} `"
      && line[q + |fn.arguments| + 6..q + |fn.arguments| + 6 + |fn.returnType|] == fn.returnType
  {
    var p, a := LinePrefix(fn.rust), "`" + name + "` (`";
    var b := a + fn.arguments;
    var c := b + "`) \U{21DD} `";
    var d := c + fn.returnType;
    assert DumpLine(name, fn) == p + (d + "`\n");
    assert |a| == |name| + 5 && |c| == |b| + 6 && |d| == |c| + |fn.returnType|;
    // Each field, located in the shortest prefix that ends with it
    SliceAfter("`" + name, "` (`", 0, 4);
    SliceAfter(a, fn.arguments, 0, |fn.arguments|);
    SliceAfter(b, "`) \U{21DD} `", 0, 6);
    SliceAfter(c, fn.returnType, 0, |fn.returnType|);
    // ... and carried out to the whole line
    SliceBefore(a, fn.arguments, |a| - 4, |a|);
    SliceBefore(b, "`) \U{21DD} `", |a| - 4, |b|);
    SliceBefore(c, fn.returnType, |a| - 4, |c|);
    SliceBefore(d, "`\n", |a| - 4, |d|);
    SliceAfter(p, d + "`\n", |a| - 4, |a|);
    SliceAfter(p, d + "`\n", |a|, |b|);
    SliceAfter(p, d + "`\n", |b|, |c|);
    SliceAfter(p, d + "`\n", |c|, |d|);
  }

  /** The slice of `p + w` at offset `|p|` is the slice of `w`. */
  lemma SliceAfter<T>(p: seq<T>, w: seq<T>, i: nat, j: nat)
    requires i <= j <= |w|
    ensures (p + w)[|p| + i..|p| + j] == w[i..j]
  {
  }

  /** A slice of `w + t` that lies inside `w` is that slice of `w`. */
  lemma SliceBefore<T>(w: seq<T>, t: seq<T>, i: nat, j: nat)
    requires i <= j <= |w|
    ensures (w + t)[i..j] == w[i..j]
  {
  }

  /**
   * The checkbox of a checklist line: ticked, and without the warning sign,
   * exactly when the function is bound in Rust.
   */
  lemma DumpLineCheckbox(name: string, fn: FunctionMatch)
    ensures var line := DumpLine(name, fn);
      line[..3] == "* [" && (line[3] == 'x' <==> fn.rust) && line[4..6] == "] "
    ensures DumpLine(name, fn)[6..11] == "**\U{26A0}**" <==> !fn.rust
  {
    var line := DumpLine(name, fn);
    assert LineBody(name, fn)[0] == '`';
    if fn.rust {
      assert line[6] == '`';
    }
  }

  /** `dump_fns_md`: one line per entry, in insertion order. */
  function DumpFnsMd(d: FunctionDict): (lines: seq<string>)
    requires d.Valid()
    ensures |lines| == |d.order|
    ensures forall i :: 0 <= i < |d.order| ==> lines[i] == DumpLine(d.order[i], d.entries[d.order[i]])
  {
    seq(|d.order|, i requires 0 <= i < |d.order| => DumpLine(d.order[i], d.entries[d.order[i]]))
  }

  const Header: string := "# uEye API Coverage\n## Functions\n"

  /** The entries of the C pass alone: each record in turn overwrites the entry of its name. */
  function CollectEntries(cFns: seq<FunctionMatch>): map<string, FunctionMatch>
  {
    if cFns == [] then map[]
    else
      var last := cFns[|cFns| - 1];
      CollectEntries(cFns[..|cFns| - 1])[last.name := last]
  }

  /** The entries of the C pass do not depend on the order it keeps. */
  lemma {:induction false} CollectCEntries(cFns: seq<FunctionMatch>)
    ensures CollectC(cFns).entries == CollectEntries(cFns)
  {
    if cFns != [] {
      CollectCEntries(cFns[..|cFns| - 1]);
    }
  }

  /** After the C pass the keys are exactly the C names, each holding a C record of that name. */
  lemma CollectCKeys(cFns: seq<FunctionMatch>)
    ensures forall k :: k in CollectC(cFns).entries <==> k in Names(cFns)
    ensures forall k :: k in CollectC(cFns).entries ==> CollectC(cFns).entries[k] in cFns && CollectC(cFns).entries[k].name == k
  {
    CollectCEntries(cFns);
    CollectEntriesKeys(cFns);
  }

  /** `CollectCKeys`, on the entries alone. */
  lemma {:induction false} CollectEntriesKeys(cFns: seq<FunctionMatch>)
    ensures forall k :: k in CollectEntries(cFns) <==> k in Names(cFns)
    ensures forall k :: k in CollectEntries(cFns) ==> CollectEntries(cFns)[k] in cFns && CollectEntries(cFns)[k].name == k
  {
    if cFns != [] {
      var n := |cFns| - 1;
      CollectEntriesKeys(cFns[..n]);
      assert Names(cFns) == Names(cFns[..n]) + [cFns[n].name];
    }
  }

  /** After the C pass each key holds the last record with that name. */
  lemma CollectCLastWins(cFns: seq<FunctionMatch>, i: nat)
    requires i < |cFns|
    requires forall j :: i < j < |cFns| ==> cFns[j].name != cFns[i].name
    ensures cFns[i].name in CollectC(cFns).entries && CollectC(cFns).entries[cFns[i].name] == cFns[i]
  {
    CollectCEntries(cFns);
    CollectEntriesLastWins(cFns, i);
  }

  /** `CollectCLastWins`, on the entries alone. */
  lemma {:induction false} CollectEntriesLastWins(cFns: seq<FunctionMatch>, i: nat)
    requires i < |cFns|
    requires forall j :: i < j < |cFns| ==> cFns[j].name != cFns[i].name
    ensures cFns[i].name in CollectEntries(cFns) && CollectEntries(cFns)[cFns[i].name] == cFns[i]
  {
    var n := |cFns| - 1;
    if i < n {
      var init := cFns[..n];
      assert cFns[n].name != cFns[i].name;
      assert init[i] == cFns[i];
      forall j | i < j < |init|
        ensures init[j].name != init[i].name
      {
        assert init[j] == cFns[j];
      }
      CollectEntriesLastWins(init, i);
    }
  }

  /** A prefix of `s` that holds `x` already decides its first position. */
  lemma {:induction false} FirstIndexAppend(s: seq<string>, t: seq<string>, x: string)
    requires x in s
    ensures FirstIndex(s + t, x) == FirstIndex(s, x)
  {
    if s[0] != x {
      assert (s + t)[1..] == s[1..] + t;
      FirstIndexAppend(s[1..], t, x);
    }
  }

  /** `order` lists names of `names` by the position where each first occurs. */
  predicate FirstOccurrenceOrder(order: seq<string>, names: seq<string>)
  {
    && (forall i :: 0 <= i < |order| ==> order[i] in names)
    && (forall i, j :: 0 <= i < j < |order| ==> FirstIndex(names, order[i]) < FirstIndex(names, order[j]))
  }

  /** Seeing one more name keeps the order of first occurrences, appending the name if it is new. */
  lemma FirstOccurrenceOrderStep(order: seq<string>, names: seq<string>, x: string)
    requires FirstOccurrenceOrder(order, names)
    requires forall k :: k in order <==> k in names
    ensures FirstOccurrenceOrder(if x in order then order else order + [x], names + [x])
  {
    var order' := if x in order then order else order + [x];
    forall i | 0 <= i < |order|
      ensures FirstIndex(names + [x], order[i]) == FirstIndex(names, order[i]) < |names|
    {
      FirstIndexAppend(names, [x], order[i]);
    }
    if x !in order {
      assert FirstIndex(names + [x], x) == |names|;
    }
    forall i, j | 0 <= i < j < |order'|
      ensures FirstIndex(names + [x], order'[i]) < FirstIndex(names + [x], order'[j])
    {
      if j < |order| {
        assert FirstIndex(names, order[i]) < FirstIndex(names, order[j]);
      }
    }
  }

  /**
   * After the C pass the keys are ordered by where each name first occurs,
   * whatever records with that name came later.
   */
  lemma {:induction false} CollectCOrder(cFns: seq<FunctionMatch>)
    ensures FirstOccurrenceOrder(CollectC(cFns).order, Names(cFns))
  {
    if cFns != [] {
      var n := |cFns| - 1;
      var init, last := cFns[..n], cFns[n];
      assert Names(cFns) == Names(init) + [last.name];
      CollectCOrder(init);
      CollectCKeys(init);
      FirstOccurrenceOrderStep(CollectC(init).order, Names(init), last.name);
    }
  }

  /** A list without repetitions has as many elements as its set. */
  lemma {:induction false} DistinctCardinality(s: seq<string>)
    requires forall i, j :: 0 <= i < j < |s| ==> s[i] != s[j]
    ensures |set x | x in s| == |s|
  {
    if s != [] {
      var n := |s| - 1;
      DistinctCardinality(s[..n]);
      assert (set x | x in s) == (set x | x in s[..n]) + {s[n]};
      assert s[n] !in (set x | x in s[..n]);
    }
  }

  /** The report has one line per distinct C name. */
  lemma CollectCSize(cFns: seq<FunctionMatch>)
    ensures |DumpFnsMd(CollectC(cFns))| == |set k | k in Names(cFns)|
  {
    var d := CollectC(cFns);
    CollectCKeys(cFns);
    DistinctCardinality(d.order);
    assert (set k | k in d.order) == (set k | k in Names(cFns));
  }

  /** `MarkRustKeyError`, on the entries alone. */
  lemma {:induction false} MarkEntriesKeyError(entries: map<string, FunctionMatch>, rustFns: seq<FunctionMatch>)
    ensures MarkEntries(entries, rustFns).Ok? <==> forall i :: 0 <= i < |rustFns| ==> rustFns[i].name in entries
    ensures MarkEntries(entries, rustFns).KeyError? ==>
      exists i :: (&& 0 <= i < |rustFns| && rustFns[i].name == MarkEntries(entries, rustFns).key
                   && rustFns[i].name !in entries && forall j :: 0 <= j < i ==> rustFns[j].name in entries)
    decreases |rustFns|
  {
    if rustFns != [] && rustFns[0].name in entries {
      var key := rustFns[0].name;
      var entries' := entries[key := entries[key].(rust := true)];
      MarkEntriesKeyError(entries', rustFns[1..]);
      if MarkEntries(entries, rustFns).KeyError? {
        var i :| 0 <= i < |rustFns[1..]| && rustFns[1..][i].name == MarkEntries(entries, rustFns).key
          && rustFns[1..][i].name !in entries' && forall j :: 0 <= j < i ==> rustFns[1..][j].name in entries';
        assert rustFns[i + 1].name == MarkEntries(entries, rustFns).key;
        forall j | 0 <= j < i + 1
          ensures rustFns[j].name in entries
        {
          if j > 0 {
            assert rustFns[1..][j - 1] == rustFns[j];
          }
        }
      } else {
        forall i | 0 <= i < |rustFns|
          ensures rustFns[i].name in entries
        {
          if i > 0 {
            assert rustFns[1..][i - 1] == rustFns[i];
          }
        }
      }
    }
  }

  /**
   * Marking fails exactly when some Rust name is not a key, and then with the
   * first such name.
   */
  lemma MarkRustKeyError(d: FunctionDict, rustFns: seq<FunctionMatch>)
    requires d.Valid()
    ensures MarkRust(d, rustFns).Ok? <==> forall i :: 0 <= i < |rustFns| ==> rustFns[i].name in d.entries
    ensures MarkRust(d, rustFns).KeyError? ==>
      exists i :: (&& 0 <= i < |rustFns| && rustFns[i].name == MarkRust(d, rustFns).key
                   && rustFns[i].name !in d.entries && forall j :: 0 <= j < i ==> rustFns[j].name in d.entries)
  {
    MarkRustEntries(d, rustFns);
    MarkEntriesKeyError(d.entries, rustFns);
  }

  /** `MarkRustResult`, on the entries alone. */
  lemma {:induction false} MarkEntriesResult(entries: map<string, FunctionMatch>, rustFns: seq<FunctionMatch>)
    requires MarkEntries(entries, rustFns).Ok?
    ensures var r := MarkEntries(entries, rustFns).value;
      && (forall k :: k in r <==> k in entries)
      && forall k :: k in entries ==> r[k] == entries[k].(rust := entries[k].rust || k in Names(rustFns))
    decreases |rustFns|
  {
    if rustFns != [] {
      var key := rustFns[0].name;
      var entries' := entries[key := entries[key].(rust := true)];
      MarkEntriesResult(entries', rustFns[1..]);
      var r := MarkEntries(entries', rustFns[1..]).value;
      assert Names(rustFns) == [key] + Names(rustFns[1..]);
      forall k | k in entries
        ensures r[k] == entries[k].(rust := entries[k].rust || k in Names(rustFns))
      {
        assert k in Names(rustFns) <==> k == key || k in Names(rustFns[1..]);
      }
    }
  }

  /**
   * A successful marking keeps the keys and their order, and changes an entry
   * only by setting `rust` when its name is among the Rust names.
   */
  lemma MarkRustResult(d: FunctionDict, rustFns: seq<FunctionMatch>)
    requires d.Valid() && MarkRust(d, rustFns).Ok?
    ensures var r := MarkRust(d, rustFns).value;
      && r.order == d.order
      && (forall k :: k in r.entries <==> k in d.entries)
      && forall k :: k in d.entries ==>
        r.entries[k] == d.entries[k].(rust := d.entries[k].rust || k in Names(rustFns))
  {
    MarkRustEntries(d, rustFns);
    MarkEntriesResult(d.entries, rustFns);
  }

  /** Marking names that are all present and already marked changes nothing. */
  lemma {:induction false} MarkEntriesFixedPoint(entries: map<string, FunctionMatch>, rustFns: seq<FunctionMatch>)
    requires forall i :: 0 <= i < |rustFns| ==> rustFns[i].name in entries && entries[rustFns[i].name].rust
    ensures MarkEntries(entries, rustFns) == Ok(entries)
    decreases |rustFns|
  {
    if rustFns != [] {
      var key := rustFns[0].name;
      assert entries[key].(rust := true) == entries[key];
      assert entries[key := entries[key]] == entries;
      forall i | 0 <= i < |rustFns[1..]|
        ensures rustFns[1..][i].name in entries && entries[rustFns[1..][i].name].rust
      {
        assert rustFns[1..][i] == rustFns[i + 1];
      }
      MarkEntriesFixedPoint(entries, rustFns[1..]);
    }
  }

  /** Marking with the same Rust records a second time changes nothing. */
  lemma MarkRustIdempotent(d: FunctionDict, rustFns: seq<FunctionMatch>)
    requires d.Valid() && MarkRust(d, rustFns).Ok?
    ensures MarkRust(MarkRust(d, rustFns).value, rustFns) == MarkRust(d, rustFns)
  {
    MarkRustEntries(d, rustFns);
    var e := MarkEntries(d.entries, rustFns).value;
    MarkEntriesKeyError(d.entries, rustFns);
    MarkEntriesResult(d.entries, rustFns);
    forall i | 0 <= i < |rustFns|
      ensures rustFns[i].name in e && e[rustFns[i].name].rust
    {
      assert rustFns[i].name in Names(rustFns);
    }
    MarkEntriesFixedPoint(e, rustFns);
    MarkRustEntries(FunctionDict(d.order, e), rustFns);
  }

  /**
   * What the script reports, from its inputs: it fails exactly when a Rust name
   * is missing from the headers; otherwise it has one line per distinct C name,
   * ticked exactly when that name is bound in Rust.
   */
  lemma CoverageReport(cFns: seq<FunctionMatch>, rustFns: seq<FunctionMatch>)
    requires forall i :: 0 <= i < |cFns| ==> !cFns[i].rust
    ensures MarkRust(CollectC(cFns), rustFns).Ok? <==> forall i :: 0 <= i < |rustFns| ==> rustFns[i].name in Names(cFns)
    ensures MarkRust(CollectC(cFns), rustFns).Ok? ==>
      var d := MarkRust(CollectC(cFns), rustFns).value;
      var lines := DumpFnsMd(d);
      && |lines| == |set k | k in Names(cFns)|
      && forall i :: 0 <= i < |lines| ==> (lines[i][3] == 'x' <==> d.order[i] in Names(rustFns))
  {
    CollectCKeys(cFns);
    MarkRustKeyError(CollectC(cFns), rustFns);
    if MarkRust(CollectC(cFns), rustFns).Ok? {
      CoverageLines(cFns, rustFns);
    }
  }

  /** The lines of a successful run: one per distinct C name, ticked exactly when bound in Rust. */
  lemma CoverageLines(cFns: seq<FunctionMatch>, rustFns: seq<FunctionMatch>)
    requires forall i :: 0 <= i < |cFns| ==> !cFns[i].rust
    requires MarkRust(CollectC(cFns), rustFns).Ok?
    ensures var d := MarkRust(CollectC(cFns), rustFns).value;
      var lines := DumpFnsMd(d);
      && |lines| == |set k | k in Names(cFns)|
      && forall i :: 0 <= i < |lines| ==> (lines[i][3] == 'x' <==> d.order[i] in Names(rustFns))
  {
    var c := CollectC(cFns);
    var d := MarkRust(c, rustFns).value;
    MarkRustResult(c, rustFns);
    CollectCSize(cFns);
    CollectCKeys(cFns);
    forall i | 0 <= i < |d.order|
      ensures DumpFnsMd(d)[i][3] == 'x' <==> d.order[i] in Names(rustFns)
    {
      var k := d.order[i];
      DumpLineCheckbox(k, d.entries[k]);
      assert !c.entries[k].rust;
    }
  }

  /** The loop over the C records of both headers, on a local dict. */
  method MergeCFunctions(cFns: seq<FunctionMatch>) returns (order: seq<string>, fns: map<string, FunctionMatch>)
    ensures FunctionDict(order, fns) == CollectC(cFns)
  {
    order, fns := [], map[];
    var i := 0;
    while i < |cFns|
      invariant 0 <= i <= |cFns|
      invariant FunctionDict(order, fns) == CollectC(cFns[..i])
    {
      var cFn := cFns[i];
      assert cFns[..i + 1][..i] == cFns[..i];
      if cFn.name !in fns {
        order := order + [cFn.name];
      }
      fns := fns[cFn.name := cFn];
      i := i + 1;
    }
    assert cFns[..i] == cFns;
  }

  /** Marking the records of `a` and then of `b` is marking those of `a + b`. */
  lemma {:induction false} MarkEntriesAppend(entries: map<string, FunctionMatch>, a: seq<FunctionMatch>, b: seq<FunctionMatch>)
    ensures MarkEntries(entries, a + b) == match MarkEntries(entries, a)
      case Ok(e) => MarkEntries(e, b)
      case KeyError(key) => KeyError(key)
    decreases |a|
  {
    if a != [] {
      assert (a + b)[0] == a[0] && (a + b)[1..] == a[1..] + b;
      if a[0].name in entries {
        MarkEntriesAppend(entries[a[0].name := entries[a[0].name].(rust := true)], a[1..], b);
      }
    } else {
      assert a + b == b;
    }
  }

  /** The loop over the records of one Rust file, updating `fns` in place. */
  method MarkFileFunctions(fns0: map<string, FunctionMatch>, records: seq<FunctionMatch>)
    returns (r: Outcome<map<string, FunctionMatch>>)
    ensures r == MarkEntries(fns0, records)
  {
    var fns := fns0;
    var k := 0;
    while k < |records|
      invariant 0 <= k <= |records|
      invariant MarkEntries(fns0, records) == MarkEntries(fns, records[k..])
    {
      var rustFn := records[k];
      assert records[k..][1..] == records[k + 1..];
      if rustFn.name !in fns {
        return KeyError(rustFn.name);
      }
      var e := fns[rustFn.name];
      fns := fns[rustFn.name := FunctionMatch(e.name, e.arguments, e.returnType, true)];
      k := k + 1;
    }
    return Ok(fns);
  }

  /**
   * The loop over the Rust files; `KeyError` for the first name that is not a
   * key.
   */
  method MarkRustFunctions(fns0: map<string, FunctionMatch>, rustFiles: seq<seq<FunctionMatch>>)
    returns (r: Outcome<map<string, FunctionMatch>>)
    ensures r == MarkEntries(fns0, Flatten(rustFiles))
  {
    var fns := fns0;
    var f := 0;
    assert rustFiles[f..] == rustFiles;
    while f < |rustFiles|
      invariant 0 <= f <= |rustFiles|
      invariant MarkEntries(fns0, Flatten(rustFiles)) == MarkEntries(fns, Flatten(rustFiles[f..]))
    {
      assert rustFiles[f..][1..] == rustFiles[f + 1..];
      MarkEntriesAppend(fns, rustFiles[f], Flatten(rustFiles[f + 1..]));
      var marked := MarkFileFunctions(fns, rustFiles[f]);
      match marked
      case KeyError(key) =>
        return KeyError(key);
      case Ok(fns') =>
        fns := fns';
      f := f + 1;
    }
    return Ok(fns);
  }

  /** The first `n + 1` elements of a sequence are its first `n` and then element `n`. */
  lemma PrefixStep<T>(s: seq<T>, n: nat)
    requires n < |s|
    ensures s[..n + 1] == s[..n] + [s[n]]
  {
  }

  /** Concatenation is associative. */
  lemma AppendAssociative<T>(a: seq<T>, b: seq<T>, c: seq<T>)
    ensures (a + b) + c == a + (b + c)
  {
  }

  /** The header write and the loop writing one checklist line per entry. */
  method WriteCoverage(order: seq<string>, fns: map<string, FunctionMatch>) returns (written: seq<string>)
    requires FunctionDict(order, fns).Valid()
    ensures written == [Header] + DumpFnsMd(FunctionDict(order, fns))
  {
    ghost var lines := DumpFnsMd(FunctionDict(order, fns));
    written := [Header];
    var n := 0;
    while n < |order|
      invariant 0 <= n <= |order|
      invariant written == [Header] + lines[..n]
    {
      assert order[n] in order;
      var line := DumpLine(order[n], fns[order[n]]);
      PrefixStep(lines, n);
      AppendAssociative([Header], lines[..n], [line]);
      written := written + [line];
      n := n + 1;
    }
    assert lines[..n] == lines;
  }

  /**
   * `main`, from the records its scans return: `ueyeFns` and `deprecatedFns`
   * from the two headers, `rustFiles` from each Rust file in the order the glob
   * yields them. `written` is the sequence of strings written to the output;
   * nothing is written when a `KeyError` escapes.
   */
  method UpdateCoverage(ueyeFns: seq<FunctionMatch>, deprecatedFns: seq<FunctionMatch>,
                        rustFiles: seq<seq<FunctionMatch>>)
    returns (exit: Exit, written: seq<string>)
    ensures var merged := MarkRust(CollectC(ueyeFns + deprecatedFns), Flatten(rustFiles));
      && (merged.KeyError? ==> exit == RaisedKeyError(merged.key) && written == [])
      && (merged.Ok? ==> exit == Returned(0) && written == [Header] + DumpFnsMd(merged.value))
  {
    var order, fns := MergeCFunctions(ueyeFns + deprecatedFns);
    MarkRustEntries(FunctionDict(order, fns), Flatten(rustFiles));
    var marked := MarkRustFunctions(fns, rustFiles);
    match marked
    case KeyError(key) =>
      return RaisedKeyError(key), [];
    case Ok(fnsMarked) =>
      written := WriteCoverage(order, fnsMarked);
      return Returned(0), written;
  }
}
