/**
 * The skill-selection toggle both pages use: `list.includes(code) ? list.filter(h => h !== code)
 * : [...list, code]`.
 */
module Selection {

  /** `list.filter(h => h !== code)`: every copy of `code` removed, the rest in order. */
  function Without(list: seq<string>, code: string): (r: seq<string>)
    ensures |r| <= |list|
    ensures forall x :: x in r <==> x in list && x != code
    decreases |list|
  {
    if list == [] then []
    else (if list[0] == code then [] else [list[0]]) + Without(list[1..], code)
  }

  /** Filtering works piecewise, so the kept codes keep their relative order. */
  lemma {:induction false} WithoutConcat(a: seq<string>, b: seq<string>, code: string)
    ensures Without(a + b, code) == Without(a, code) + Without(b, code)
    decreases |a|
  {
    if a == [] {
      assert a + b == b;
    } else {
      assert (a + b)[1..] == a[1..] + b;
      WithoutConcat(a[1..], b, code);
    }
  }

  /** Filtering drops exactly the copies of `code`: every other code keeps its multiplicity. */
  lemma {:induction false} WithoutMultiset(list: seq<string>, code: string)
    ensures multiset(Without(list, code)) == multiset(list)[code := 0]
    decreases |list|
  {
    if list != [] {
      WithoutMultiset(list[1..], code);
      assert list == [list[0]] + list[1..];
    }
  }

  /** A list without the code is left as it is. */
  lemma {:induction false} WithoutAbsent(list: seq<string>, code: string)
    requires code !in list
    ensures Without(list, code) == list
    decreases |list|
  {
    if list != [] {
      WithoutAbsent(list[1..], code);
    }
  }

  /** `handleToggleHabilidade` / `toggleHabilidade` on the current selection. */
  function Toggle(list: seq<string>, code: string): (r: seq<string>)
    ensures code in r <==> code !in list
    ensures forall x | x != code :: x in r <==> x in list
    ensures code !in list ==> r == list + [code]
    ensures code in list ==> multiset(r) == multiset(list)[code := 0]
  {
    if code in list then
      WithoutMultiset(list, code);
      Without(list, code)
    else list + [code]
  }

  /** Toggling a selected code drops every copy of it and keeps the other codes in order. */
  lemma TogglePresent(a: seq<string>, b: seq<string>, code: string)
    requires code in a + b
    ensures Toggle(a + b, code) == Without(a, code) + Without(b, code)
  {
    WithoutConcat(a, b, code);
  }

  /** Toggling an unselected code twice gives the selection back. */
  lemma ToggleTwiceAbsent(list: seq<string>, code: string)
    requires code !in list
    ensures Toggle(Toggle(list, code), code) == list
  {
    WithoutConcat(list, [code], code);
    WithoutAbsent(list, code);
  }

  /** Toggling a selected code twice leaves one copy of it, moved to the end. */
  lemma ToggleTwicePresent(list: seq<string>, code: string)
    requires code in list
    ensures Toggle(Toggle(list, code), code) == Without(list, code) + [code]
  {
  }
}
