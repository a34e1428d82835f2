/** The starred-words list of the web service: an in-memory list of strings that keeps
    insertion order and never holds the same word twice (backend/app.py:113, 154-170). */
module Favourites {

  /** No word occurs twice in `s`. */
  predicate NoDuplicates(s: seq<string>) {
    forall i, j :: 0 <= i < j < |s| ==> s[i] != s[j]
  }

  /** The list after adding `w`: appended at the end only when it is not already there. */
  function Appended(s: seq<string>, w: string): (r: seq<string>)
    ensures w in r
    ensures |r| == if w in s then |s| else |s| + 1
    ensures r[..|s|] == s
    ensures forall x :: x in r <==> x in s || x == w
    ensures NoDuplicates(s) ==> NoDuplicates(r)
  {
    if w in s then s else s + [w]
  }

  /** The list after Python's `list.remove(w)` on a list holding `w`, or the list itself
      when `w` is absent: the first occurrence of `w` is dropped. */
  function RemoveFirst(s: seq<string>, w: string): (r: seq<string>)
    ensures |r| == if w in s then |s| - 1 else |s|
    ensures forall x :: x in r ==> x in s
    ensures w !in s ==> r == s
  {
    if s == [] then []
    else
      assert s == [s[0]] + s[1..];
      if s[0] == w then s[1..]
      else [s[0]] + RemoveFirst(s[1..], w)
  }

  /** Removal takes away one copy of the word and nothing else: as a multiset, the result is
      the old list minus the word. */
  lemma {:induction false} RemoveFirstMultiset(s: seq<string>, w: string)
    ensures multiset(RemoveFirst(s, w)) == multiset(s) - multiset{w}
  {
    if s != [] {
      assert s == [s[0]] + s[1..];
      if s[0] != w {
        RemoveFirstMultiset(s[1..], w);
        assert RemoveFirst(s, w) == [s[0]] + RemoveFirst(s[1..], w);
      }
    }
  }

  /** The position of the first occurrence of `w` in `s`. */
  function IndexOf(s: seq<string>, w: string): (i: nat)
    requires w in s
    ensures i < |s| && s[i] == w
    ensures forall j :: 0 <= j < i ==> s[j] != w
  {
    if s[0] == w then 0 else IndexOf(s[1..], w) + 1
  }

  /** One step of RemoveFirstSplices: a splice of the tail that keeps the head in front is a
      splice of the whole list one position further on. */
  lemma SpliceStep(s: seq<string>, w: string, k: nat)
    requires s != [] && s[0] != w && k < |s| - 1
    requires RemoveFirst(s[1..], w) == s[1..][..k] + s[1..][k + 1..]
    ensures RemoveFirst(s, w) == s[..k + 1] + s[k + 2..]
  {
    var t := s[1..];
    calc {
      RemoveFirst(s, w);
      [s[0]] + RemoveFirst(t, w);
      [s[0]] + (t[..k] + t[k + 1..]);
      { assert [s[0]] + (t[..k] + t[k + 1..]) == ([s[0]] + t[..k]) + t[k + 1..]; }
      ([s[0]] + t[..k]) + t[k + 1..];
      { assert [s[0]] + t[..k] == s[..k + 1]; assert t[k + 1..] == s[k + 2..]; }
      s[..k + 1] + s[k + 2..];
    }
  }

  /** Removing a present word splices out its first occurrence: every other entry stays,
      in the same relative order. */
  lemma {:induction false} RemoveFirstSplices(s: seq<string>, w: string)
    requires w in s
    ensures RemoveFirst(s, w) == s[..IndexOf(s, w)] + s[IndexOf(s, w) + 1..]
  {
    var i := IndexOf(s, w);
    if i == 0 {
      assert s[..0] + s[1..] == s[1..];
    } else {
      var t := s[1..];
      assert t[i - 1] == w;
      assert IndexOf(t, w) == i - 1;
      RemoveFirstSplices(t, w);
      SpliceStep(s, w, i - 1);
    }
  }

  /** On a list without duplicates, removing `w` leaves a list without duplicates that no
      longer holds `w` and holds every other word it held before. */
  lemma {:induction false} RemoveFirstDistinct(s: seq<string>, w: string)
    requires NoDuplicates(s)
    ensures NoDuplicates(RemoveFirst(s, w))
    ensures w !in RemoveFirst(s, w)
    ensures forall x :: x != w ==> (x in RemoveFirst(s, w) <==> x in s)
  {
    if s != [] {
      var t := s[1..];
      assert NoDuplicates(t) by {
        forall i, j | 0 <= i < j < |t| ensures t[i] != t[j] {
          assert t[i] == s[i + 1] && t[j] == s[j + 1];
        }
      }
      assert s[0] !in t by {
        forall i | 0 <= i < |t| ensures t[i] != s[0] {
          assert t[i] == s[i + 1];
        }
      }
      if s[0] != w {
        RemoveFirstDistinct(t, w);
        var r := RemoveFirst(t, w);
        assert RemoveFirst(s, w) == [s[0]] + r;
        assert s[0] !in r;
      }
    }
  }

  /** Adding a word that was not starred and then removing it gives back the original list. */
  lemma {:induction false} RemoveUndoesAdd(s: seq<string>, w: string)
    requires w !in s
    ensures RemoveFirst(Appended(s, w), w) == s
  {
    assert Appended(s, w) == s + [w];
    if s == [] {
      assert [w][1..] == [];
    } else {
      var u := s + [w];
      calc {
        RemoveFirst(u, w);
        { assert u[0] == s[0] != w; }
        [s[0]] + RemoveFirst(u[1..], w);
        { assert u[1..] == s[1..] + [w]; }
        [s[0]] + RemoveFirst(s[1..] + [w], w);
        { RemoveUndoesAdd(s[1..], w); assert Appended(s[1..], w) == s[1..] + [w]; }
        [s[0]] + s[1..];
        s;
      }
    }
  }

  /** The module-level `starred_words` list; a fresh object is the empty list the module
      starts with. */
  class StarredWords {
    var words: seq<string>

    ghost predicate Valid()
      reads this
    {
      NoDuplicates(words)
    }

    constructor ()
      ensures Valid() && words == []
    {
      words := [];
    }

    /** `get_starred_words`: the current list, unchanged. */
    method Get() returns (r: seq<string>)
      requires Valid()
      ensures r == words && NoDuplicates(r)
    {
      r := words;
    }

    /** `add_starred_word`: append the word unless it is already starred; answer the list. */
    method Add(word: string) returns (r: seq<string>)
      requires Valid()
      modifies this
      ensures Valid()
      ensures words == Appended(old(words), word)
      ensures r == words
    {
      if word !in words {
        words := words + [word];
      }
      r := words;
    }

    /** `remove_starred_word`: drop the word if it is starred; answer the list. */
    method Remove(word: string) returns (r: seq<string>)
      requires Valid()
      modifies this
      ensures Valid() && word !in words
      ensures words == RemoveFirst(old(words), word)
      ensures r == words
    {
      if word in words {
        RemoveFirstDistinct(words, word);
        words := RemoveFirst(words, word);
      }
      r := words;
    }
  }
}
