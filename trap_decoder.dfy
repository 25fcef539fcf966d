/**
 * decode_wasm_trap of the simulator (simulator/src/main.rs): turns the debug rendering of a
 * host error into one of eight human-readable forms. Wasm-trap sub-kinds are matched
 * case-insensitively and in a fixed order; the HostError check is case-sensitive.
 *
 * Lowercasing is ASCII lowercasing: 'A'..'Z' map to 'a'..'z', every other character stays.
 */
module TrapDecoder {
  import opened Wrappers

  const UnreachableMessage: string := "Unreachable Instruction: The contract hit a panic or unreachable code path."
  const OutOfBoundsMessage: string := "Out of Bounds Access: The contract tried to access invalid memory (OOB)."
  const IntegerOverflowMessage: string := "Integer Overflow: A mathematical operation exceeded the type limits."
  const StackOverflowMessage: string := "Stack Overflow: The contract's recursion or stack usage is too high."
  const DivideByZeroMessage: string := "Division by Zero: The contract attempted to divide by zero."

  const WasmTrapPrefix: string := "Wasm Trap: "
  const HostTrapPrefix: string := "Host-initiated Trap: "
  const ExecutionErrorPrefix: string := "Execution Error: "

  /** The wasm-trap sub-kinds in the order they are tested, each with its message. */
  const SubKinds: seq<(string, string)> := [
    ("unreachable", UnreachableMessage),
    ("out of bounds", OutOfBoundsMessage),
    ("integer overflow", IntegerOverflowMessage),
    ("stack overflow", StackOverflowMessage),
    ("divide by zero", DivideByZeroMessage)
  ]

  const SubKindMessages: set<string> := {UnreachableMessage, OutOfBoundsMessage, IntegerOverflowMessage, StackOverflowMessage, DivideByZeroMessage}

  function LowerChar(c: char): char
  {
    if 'A' <= c <= 'Z' then (c as int + ('a' as int - 'A' as int)) as char else c
  }

  function ToLower(s: string): string
  {
    seq(|s|, i requires 0 <= i < |s| => LowerChar(s[i]))
  }

  predicate StartsWith(s: string, prefix: string)
  {
    |prefix| <= |s| && s[..|prefix|] == prefix
  }

  /** Substring test, by trying every start position from the left. */
  predicate Contains(s: string, needle: string)
    decreases |s|
  {
    StartsWith(s, needle) || (|s| > 0 && Contains(s[1..], needle))
  }

  /** The needle occurs in s starting at position i. */
  predicate OccursAt(s: string, needle: string, i: int)
  {
    0 <= i <= |s| - |needle| && s[i..i + |needle|] == needle
  }

  lemma TailSlice(s: string, i: int, j: int)
    requires 1 <= i <= j <= |s|
    ensures s[1..][i - 1..j - 1] == s[i..j]
  {
    var t := s[1..][i - 1..j - 1];
    forall k | 0 <= k < j - i
      ensures t[k] == s[i..j][k]
    {
    }
  }

  /** Contains agrees with the positional definition of a substring, in both directions. */
  lemma {:induction false} ContainsIff(s: string, needle: string)
    ensures Contains(s, needle) <==> exists i :: OccursAt(s, needle, i)
    decreases |s|
  {
    if StartsWith(s, needle) {
      assert OccursAt(s, needle, 0);
    } else if |s| > 0 {
      ContainsIff(s[1..], needle);
      if Contains(s[1..], needle) {
        var i :| OccursAt(s[1..], needle, i);
        TailSlice(s, i + 1, i + 1 + |needle|);
        assert OccursAt(s, needle, i + 1);
      } else {
        forall i | OccursAt(s, needle, i)
          ensures false
        {
          if i > 0 {
            TailSlice(s, i, i + |needle|);
            assert OccursAt(s[1..], needle, i - 1);
          }
        }
      }
    }
  }

  /** A string shorter than the needle cannot contain it. */
  lemma {:induction false} ShortNeverContains(s: string, needle: string)
    requires |s| < |needle|
    ensures !Contains(s, needle)
    decreases |s|
  {
    if |s| > 0 {
      ShortNeverContains(s[1..], needle);
    }
  }

  /** decode_wasm_trap, from the debug rendering of the error. */
  function DecodeWasmTrap(errStr: string): (r: string)
    ensures |r| > 0
    ensures || r in SubKindMessages
            || r == WasmTrapPrefix + errStr
            || r == HostTrapPrefix + errStr
            || r == ExecutionErrorPrefix + errStr
  {
    var lower := ToLower(errStr);
    if Contains(lower, "wasm trap") then
      if Contains(lower, "unreachable") then UnreachableMessage
      else if Contains(lower, "out of bounds") then OutOfBoundsMessage
      else if Contains(lower, "integer overflow") then IntegerOverflowMessage
      else if Contains(lower, "stack overflow") then StackOverflowMessage
      else if Contains(lower, "divide by zero") then DivideByZeroMessage
      else WasmTrapPrefix + errStr
    else if Contains(errStr, "HostError") then HostTrapPrefix + errStr
    else ExecutionErrorPrefix + errStr
  }

  /** The message of the first table row whose needle the text contains. */
  function FirstMatch(lower: string, table: seq<(string, string)>): Option<string>
  {
    if table == [] then None
    else if Contains(lower, table[0].0) then Some(table[0].1)
    else FirstMatch(lower, table[1..])
  }

  /**
   * FirstMatch picks the earliest matching row: there is no match exactly when no needle
   * occurs, and a row that matches with no earlier row matching is the one chosen.
   */
  lemma {:induction false} FirstMatchIsEarliest(lower: string, table: seq<(string, string)>)
    ensures FirstMatch(lower, table).None? <==> forall i :: 0 <= i < |table| ==> !Contains(lower, table[i].0)
    ensures forall i :: 0 <= i < |table| && Contains(lower, table[i].0) && (forall j :: 0 <= j < i ==> !Contains(lower, table[j].0))
                        ==> FirstMatch(lower, table) == Some(table[i].1)
  {
    if table != [] {
      FirstMatchIsEarliest(lower, table[1..]);
      forall i | 0 <= i < |table| && Contains(lower, table[i].0) && (forall j :: 0 <= j < i ==> !Contains(lower, table[j].0))
        ensures FirstMatch(lower, table) == Some(table[i].1)
      {
        if i > 0 {
          assert table[1..][i - 1] == table[i];
          assert forall j :: 0 <= j < i - 1 ==> table[1..][j] == table[j + 1];
        }
      }
      if FirstMatch(lower, table).None? {
        forall i | 0 <= i < |table|
          ensures !Contains(lower, table[i].0)
        {
          if i > 0 {
            assert table[1..][i - 1] == table[i];
          }
        }
      }
    }
  }

  /**
   * The classifier agrees with the ordered table: a wasm trap gets the message of its first
   * matching sub-kind, or the generic form with the original (not lowercased) text.
   */
  lemma DecodeWasmTrapFollowsTable(errStr: string)
    ensures var lower := ToLower(errStr);
            Contains(lower, "wasm trap") ==>
              DecodeWasmTrap(errStr) == match FirstMatch(lower, SubKinds)
                                        case Some(m) => m
                                        case None => WasmTrapPrefix + errStr
  {
    var lower := ToLower(errStr);
    var t1 := SubKinds[1..];
    var t2 := t1[1..];
    var t3 := t2[1..];
    var t4 := t3[1..];
    assert SubKinds[0] == ("unreachable", UnreachableMessage);
    assert t1[0] == ("out of bounds", OutOfBoundsMessage);
    assert t2[0] == ("integer overflow", IntegerOverflowMessage);
    assert t3[0] == ("stack overflow", StackOverflowMessage);
    assert t4 == [("divide by zero", DivideByZeroMessage)];
    assert FirstMatch(lower, t4) == if Contains(lower, "divide by zero") then Some(DivideByZeroMessage) else None;
    assert FirstMatch(lower, t3) == if Contains(lower, "stack overflow") then Some(StackOverflowMessage) else FirstMatch(lower, t4);
    assert FirstMatch(lower, t2) == if Contains(lower, "integer overflow") then Some(IntegerOverflowMessage) else FirstMatch(lower, t3);
    assert FirstMatch(lower, t1) == if Contains(lower, "out of bounds") then Some(OutOfBoundsMessage) else FirstMatch(lower, t2);
    assert FirstMatch(lower, SubKinds) == if Contains(lower, "unreachable") then Some(UnreachableMessage) else FirstMatch(lower, t1);
  }

  /** Wasm-trap classification ignores case: two texts equal up to case get the same message. */
  lemma WasmTrapIgnoresCase(s: string, t: string)
    requires ToLower(s) == ToLower(t)
    requires Contains(ToLower(s), "wasm trap")
    requires FirstMatch(ToLower(s), SubKinds).Some?
    ensures DecodeWasmTrap(s) == DecodeWasmTrap(t)
  {
    DecodeWasmTrapFollowsTable(s);
    DecodeWasmTrapFollowsTable(t);
  }

  /**
   * A text that does not mention a wasm trap (in any case) is a host-initiated trap exactly
   * when "HostError", spelled with that case, occurs in it; otherwise an execution error.
   */
  lemma NonTrapClassification(s: string)
    requires !Contains(ToLower(s), "wasm trap")
    ensures DecodeWasmTrap(s) == if exists i :: OccursAt(s, "HostError", i) then HostTrapPrefix + s else ExecutionErrorPrefix + s
  {
    ContainsIff(s, "HostError");
  }

  /** The HostError check is case-sensitive: the lowercase spelling is a plain execution error. */
  lemma HostErrorIsCaseSensitive()
    ensures DecodeWasmTrap("HostError") == HostTrapPrefix + "HostError"
    ensures DecodeWasmTrap("hosterror") == ExecutionErrorPrefix + "hosterror"
  {
    var upper, lower := "HostError", "hosterror";
    assert ToLower(upper) == lower;
    assert ToLower(lower) == lower;
    NotWasmTrap();
    assert StartsWith(upper, "HostError");
    assert !StartsWith(lower, "HostError") by { assert lower[0] != 'H'; }
    ShortNeverContains(lower[1..], "HostError");
  }

  /** "hosterror" does not mention a wasm trap. */
  lemma NotWasmTrap()
    ensures !Contains("hosterror", "wasm trap")
  {
    var lower := "hosterror";
    assert !StartsWith(lower, "wasm trap") by { assert lower[0] != 'w'; }
    ShortNeverContains(lower[1..], "wasm trap");
  }
}
