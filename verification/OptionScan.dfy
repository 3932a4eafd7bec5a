/** Options are looked up by scanning the argument list; an accepted add command makes that safe. */
module OptionScan {

  predicate IsOption(s: string) {
    |s| >= 2 && s[0] == '-' && s[1] == '-'
  }

  method ContainsKey(keys: seq<string>, key: string) returns (found: bool)
    ensures found <==> key in keys
  {
    for i := 0 to |keys|
      invariant key !in keys[..i]
    {
      if keys[i] == key { return true; }
    }
    return false;
  }

  // The first occurrence of a key that has something after it.
  ghost predicate FirstAt(argv: seq<string>, key: string, i: int) {
    1 <= i < |argv| - 1 && argv[i] == key && forall j :: 1 <= j < i ==> argv[j] != key
  }

  method ArgValue(argv: seq<string>, key: string) returns (value: string)
    ensures forall i :: FirstAt(argv, key, i) ==> value == argv[i + 1]
    ensures (forall i :: 1 <= i < |argv| - 1 ==> argv[i] != key) ==> value == ""
  {
    var i := 1;
    while i + 1 < |argv|
      invariant 1 <= i && forall j :: 1 <= j < i && j < |argv| ==> argv[j] != key
    {
      if argv[i] == key { return argv[i + 1]; }
      i := i + 1;
    }
    return "";
  }

  method HasArg(argv: seq<string>, key: string) returns (present: bool)
    ensures present <==> exists i :: 1 <= i < |argv| && argv[i] == key
  {
    var i := 1;
    while i < |argv|
      invariant 1 <= i && forall j :: 1 <= j < i && j < |argv| ==> argv[j] != key
    {
      if argv[i] == key { return true; }
      i := i + 1;
    }
    return false;
  }

  // From position i on, every option is known and every value option has a value.
  predicate Known(argv: seq<string>, i: nat, valueArgs: seq<string>, flagArgs: seq<string>)
    decreases |argv| - i
  {
    if i >= |argv| then true
    else if !IsOption(argv[i]) then Known(argv, i + 1, valueArgs, flagArgs)
    else if argv[i] in valueArgs then
      i + 1 < |argv| && !IsOption(argv[i + 1]) && Known(argv, i + 2, valueArgs, flagArgs)
    else argv[i] in flagArgs && Known(argv, i + 1, valueArgs, flagArgs)
  }

  method RejectUnknownArgs(argv: seq<string>, valueArgs: seq<string>, flagArgs: seq<string>) returns (accepted: bool)
    ensures accepted <==> Known(argv, 1, valueArgs, flagArgs)
  {
    var i := 1;
    while i < |argv|
      invariant 1 <= i
      invariant Known(argv, i, valueArgs, flagArgs) <==> Known(argv, 1, valueArgs, flagArgs)
    {
      var key := argv[i];
      if IsOption(key) {
        var takesValue := ContainsKey(valueArgs, key);
        if takesValue {
          if i + 1 >= |argv| || IsOption(argv[i + 1]) { return false; }
          i := i + 1;
        } else {
          var isFlag := ContainsKey(flagArgs, key);
          if !isFlag { return false; }
        }
      }
      i := i + 1;
    }
    return true;
  }

  // ---- The add command ----

  function Key(arguments: seq<string>, k: nat): string
    requires 2 * k + 1 < |arguments|
  {
    arguments[2 * k + 1]
  }

  function Value(arguments: seq<string>, k: nat): string
    requires 2 * k + 2 < |arguments|
  {
    arguments[2 * k + 2]
  }

  // The command name and n named pairs: allowed keys, all different, and values that are no options.
  ghost predicate Named(arguments: seq<string>, allowed: seq<string>, n: nat) {
    && 2 * n < |arguments|
    && (forall k :: 0 <= k < n ==> Key(arguments, k) in allowed && !IsOption(Value(arguments, k)))
    && (forall j, k :: 0 <= j < k < n ==> Key(arguments, j) != Key(arguments, k))
  }

  ghost predicate AddForm(arguments: seq<string>, allowed: seq<string>) {
    |arguments| % 2 == 1 && Named(arguments, allowed, |arguments| / 2)
  }

  // With an allowed option at every odd position, the walk over the options is a walk over the pairs.
  lemma {:induction false} KnownPairs(arguments: seq<string>, allowed: seq<string>, k: nat)
    requires |arguments| % 2 == 1 && k <= |arguments| / 2
    requires forall i :: k <= i < |arguments| / 2 ==> Key(arguments, i) in allowed && IsOption(Key(arguments, i))
    ensures Known(arguments, 2 * k + 1, allowed, []) <==>
            forall i :: k <= i < |arguments| / 2 ==> !IsOption(Value(arguments, i))
    decreases |arguments| / 2 - k
  {
    if k < |arguments| / 2 {
      KnownPairs(arguments, allowed, k + 1);
      var key, value := Key(arguments, k), Value(arguments, k);
      assert arguments[2 * k + 1] == key && arguments[2 * k + 2] == value;
      assert Known(arguments, 2 * k + 1, allowed, []) <==>
             !IsOption(value) && Known(arguments, 2 * (k + 1) + 1, allowed, []);
    }
  }

  /** The checks of the add command accept exactly the lists of named pairs. */
  method AcceptAdd(arguments: seq<string>, allowed: seq<string>) returns (accepted: bool)
    requires forall key :: key in allowed ==> IsOption(key)
    ensures accepted <==> AddForm(arguments, allowed)
  {
    var known := RejectUnknownArgs(arguments, allowed, []);
    if |arguments| % 2 != 1 { return false; }
    var n := |arguments| / 2;
    var supplied: set<string> := {};
    var k := 0;
    while k < n
      invariant 0 <= k <= n
      invariant forall i :: 0 <= i < k ==> Key(arguments, i) in allowed
      invariant forall key :: key in supplied <==> exists i :: 0 <= i < k && Key(arguments, i) == key
      invariant forall i, j :: 0 <= i < j < k ==> Key(arguments, i) != Key(arguments, j)
    {
      var key := Key(arguments, k);
      var found := ContainsKey(allowed, key);
      if !found || key in supplied { return false; }
      supplied := supplied + {key};
      k := k + 1;
    }
    KnownPairs(arguments, allowed, 0);
    return known;
  }

  // ---- The scan refines the map ----

  // The first n pairs as a map.
  function Pairs(arguments: seq<string>, n: nat): map<string, string>
    requires 2 * n < |arguments|
  {
    if n == 0 then map[] else Pairs(arguments, n - 1)[Key(arguments, n - 1) := Value(arguments, n - 1)]
  }

  lemma {:induction false} PairsHold(arguments: seq<string>, allowed: seq<string>, n: nat)
    requires Named(arguments, allowed, n)
    ensures forall k :: 0 <= k < n ==>
              Key(arguments, k) in Pairs(arguments, n) && Pairs(arguments, n)[Key(arguments, k)] == Value(arguments, k)
    ensures forall key :: key in Pairs(arguments, n) ==> exists k :: 0 <= k < n && Key(arguments, k) == key
  {
    if n > 0 {
      PairsHold(arguments, allowed, n - 1);
      forall key | key in Pairs(arguments, n)
        ensures exists k :: 0 <= k < n && Key(arguments, k) == key
      {
        if key in Pairs(arguments, n - 1) {
          var k :| 0 <= k < n - 1 && Key(arguments, k) == key;
          assert Key(arguments, k) == key && k < n;
        } else {
          assert Key(arguments, n - 1) == key;
        }
      }
    }
  }

  lemma ValueIsNoOption(arguments: seq<string>, allowed: seq<string>, i: nat)
    requires AddForm(arguments, allowed) && i % 2 == 0 && 1 <= i < |arguments|
    ensures !IsOption(arguments[i])
  {
    assert arguments[i] == Value(arguments, i / 2 - 1);
  }

  // In an accepted command an option stands only where a key stands.
  lemma OptionIsAKey(arguments: seq<string>, allowed: seq<string>, key: string, i: nat)
    requires AddForm(arguments, allowed) && IsOption(key) && 1 <= i < |arguments| && arguments[i] == key
    ensures i % 2 == 1 && Key(arguments, i / 2) == key && i / 2 < |arguments| / 2
  {
    if i % 2 == 0 { ValueIsNoOption(arguments, allowed, i); }
  }

  lemma KeyIsFirst(arguments: seq<string>, allowed: seq<string>, k: nat)
    requires AddForm(arguments, allowed) && k < |arguments| / 2 && IsOption(Key(arguments, k))
    ensures FirstAt(arguments, Key(arguments, k), 2 * k + 1)
  {
    var key := Key(arguments, k);
    forall j | 1 <= j < 2 * k + 1 ensures arguments[j] != key {
      if arguments[j] == key { OptionIsAKey(arguments, allowed, key, j); }
    }
  }

  /** For every accepted add command and every option, the scans agree with the map of its pairs: no
      value is taken for a key, and an option that is not allowed looks absent. */
  method LookUp(arguments: seq<string>, allowed: seq<string>, key: string) returns (value: string, present: bool)
    requires (forall k :: k in allowed ==> IsOption(k)) && AddForm(arguments, allowed) && IsOption(key)
    ensures var pairs := Pairs(arguments, |arguments| / 2);
            && (present <==> key in pairs)
            && value == (if key in pairs then pairs[key] else "")
            && (key !in allowed ==> !present)
  {
    value := ArgValue(arguments, key);
    present := HasArg(arguments, key);
    ghost var n := |arguments| / 2;
    PairsHold(arguments, allowed, n);
    if key in Pairs(arguments, n) {
      ghost var k :| 0 <= k < n && Key(arguments, k) == key;
      KeyIsFirst(arguments, allowed, k);
      assert arguments[2 * k + 1] == key;
    } else {
      forall i | 1 <= i < |arguments| ensures arguments[i] != key {
        if arguments[i] == key { OptionIsAKey(arguments, allowed, key, i); }
      }
    }
  }
}
