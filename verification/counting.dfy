/**
 * `count_parameters`: the arity of a declaration is the number of children of
 * its parameter list whose kind is exactly "parameter". The receiver child
 * ("self_parameter") is skipped explicitly; every other child kind, the
 * punctuation tokens "(", ",", ")" included, adds nothing.
 */
module ParameterCounting {

  const PARAMETER: string := "parameter"
  const SELF_PARAMETER: string := "self_parameter"

  /** The arity of a parameter list, given the kinds of its children in order. */
  function ParameterCount(kinds: seq<string>): nat
  {
    if kinds == [] then 0
    else ParameterCount(kinds[..|kinds| - 1]) + (if kinds[|kinds| - 1] == PARAMETER then 1 else 0)
  }

  /** The loop of `count_parameters`, one child at a time. */
  method CountParameters(kinds: seq<string>) returns (count: nat)
    ensures count == ParameterCount(kinds)
  {
    count := 0;
    for i := 0 to |kinds|
      invariant count == ParameterCount(kinds[..i])
    {
      assert kinds[..i + 1][..i] == kinds[..i];
      var kind := kinds[i];
      if kind == SELF_PARAMETER {
        continue;
      }
      if kind == PARAMETER {
        count := count + 1;
      }
    }
    assert kinds[..|kinds|] == kinds;
  }

  /** Reference definition: the arity is the multiplicity of "parameter"
      among the child kinds. */
  lemma {:induction false} ParameterCountIsMultiplicity(kinds: seq<string>)
    ensures ParameterCount(kinds) == multiset(kinds)[PARAMETER]
  {
    if kinds != [] {
      var init, last := kinds[..|kinds| - 1], kinds[|kinds| - 1];
      assert kinds == init + [last];
      ParameterCountIsMultiplicity(init);
    }
  }

  /** The arity never exceeds the number of children. */
  lemma {:induction false} ParameterCountBounded(kinds: seq<string>)
    ensures ParameterCount(kinds) <= |kinds|
    ensures ParameterCount(kinds) == |kinds| <==> forall i :: 0 <= i < |kinds| ==> kinds[i] == PARAMETER
  {
    if kinds != [] {
      var init := kinds[..|kinds| - 1];
      ParameterCountBounded(init);
      if ParameterCount(kinds) == |kinds| {
        forall i | 0 <= i < |kinds| ensures kinds[i] == PARAMETER {
          if i < |init| { assert kinds[i] == init[i]; }
        }
      }
    }
  }

  /** Counting distributes over concatenation of child lists. */
  lemma {:induction false} ParameterCountAppend(a: seq<string>, b: seq<string>)
    ensures ParameterCount(a + b) == ParameterCount(a) + ParameterCount(b)
    decreases |b|
  {
    if b == [] {
      assert a + b == a;
    } else {
      var init := b[..|b| - 1];
      assert (a + b)[..|a + b| - 1] == a + init;
      ParameterCountAppend(a, init);
    }
  }

  /** One child, wherever it sits, adds one exactly when its kind is "parameter". */
  lemma ParameterCountInsert(a: seq<string>, kind: string, b: seq<string>)
    ensures ParameterCount(a + [kind] + b) == ParameterCount(a + b) + (if kind == PARAMETER then 1 else 0)
  {
    ParameterCountAppend(a + [kind], b);
    ParameterCountAppend(a, [kind]);
    ParameterCountAppend(a, b);
    assert [kind][..0] == [];
  }

  /** Inserting or removing a receiver child leaves the arity unchanged. */
  lemma SelfParameterIgnored(a: seq<string>, b: seq<string>)
    ensures ParameterCount(a + [SELF_PARAMETER] + b) == ParameterCount(a + b)
  {
    ParameterCountInsert(a, SELF_PARAMETER, b);
  }
}
