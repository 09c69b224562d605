/** The question checklist (src/components/recording/question-panel.tsx):
    the set of checked question ids, kept in the browser's local storage
    under a key chosen from the project or the session. A JavaScript `Set`
    iterates in insertion order, so the set is a sequence without
    repetitions; local storage is a map from keys to the stored lists. */
module QuestionPanel {
  import opened Common

  const KeyPrefix := "questions-"
  const DefaultKey := "questions-default"

  /** A string is truthy when it is present and not empty. */
  predicate Truthy(s: Option<string>) {
    s.Some? && s.value != ""
  }

  /** Line 70: the project id when there is one, else the session id, else
      the shared default key. */
  function StorageKey(projectId: Option<string>, sessionId: Option<string>): (key: string)
    ensures Truthy(projectId) ==> key == KeyPrefix + projectId.value
    ensures !Truthy(projectId) && Truthy(sessionId) ==> key == KeyPrefix + sessionId.value
    ensures !Truthy(projectId) && !Truthy(sessionId) ==> key == DefaultKey
  {
    if Truthy(projectId) then KeyPrefix + projectId.value
    else if Truthy(sessionId) then KeyPrefix + sessionId.value
    else DefaultKey
  }

  /** Different projects keep their checklists apart. */
  lemma StorageKeysSeparateProjects(p1: string, p2: string, sessionId: Option<string>)
    requires p1 != "" && p2 != "" && p1 != p2
    ensures StorageKey(Some(p1), sessionId) != StorageKey(Some(p2), sessionId)
  {
    if StorageKey(Some(p1), sessionId) == StorageKey(Some(p2), sessionId) {
      AppendLeftCancel(KeyPrefix, p1, p2);
    }
  }

  predicate NoRepeats(s: seq<string>) {
    forall i, j :: 0 <= i < j < |s| ==> s[i] != s[j]
  }

  /** `new Set(list)`: every element of the list, each once. */
  function Dedup(list: seq<string>): (r: seq<string>)
    ensures NoRepeats(r)
    ensures forall x :: x in r <==> x in list
    ensures |r| <= |list|
  {
    if list == [] then []
    else
      var r := Dedup(list[..|list| - 1]);
      var x := list[|list| - 1];
      assert list == list[..|list| - 1] + [x];
      if x in r then r else r + [x]
  }

  /** A list without repetitions is its own set. */
  lemma {:induction false} DedupOfNoRepeats(list: seq<string>)
    requires NoRepeats(list)
    ensures Dedup(list) == list
    decreases |list|
  {
    if list != [] {
      var init := list[..|list| - 1];
      assert NoRepeats(init);
      DedupOfNoRepeats(init);
      assert list[|list| - 1] !in init;
      assert list == init + [list[|list| - 1]];
    }
  }

  /** `newSet.delete(x)`: the other elements, in order. */
  function Remove(s: seq<string>, x: string): (r: seq<string>)
    ensures forall y :: y in r <==> y in s && y != x
    ensures NoRepeats(s) ==> NoRepeats(r)
  {
    if s == [] then []
    else if s[0] == x then Remove(s[1..], x)
    else
      var rest := Remove(s[1..], x);
      assert NoRepeats(s) ==> NoRepeats(s[1..]) && s[0] !in rest;
      [s[0]] + rest
  }

  /** Lines 83-88: the set after `toggleQuestion(id)`. */
  function Toggled(s: seq<string>, id: string): (r: seq<string>)
    requires NoRepeats(s)
    ensures NoRepeats(r)
    ensures id in r <==> id !in s
    ensures forall x :: x != id ==> (x in r <==> x in s)
  {
    if id in s then Remove(s, id) else s + [id]
  }

  /** Toggling the same question twice gives back the same set of checked
      questions (the question moves to the end of the iteration order). */
  lemma ToggleTwiceRestoresSet(s: seq<string>, id: string)
    requires NoRepeats(s)
    ensures forall x :: x in Toggled(Toggled(s, id), id) <==> x in s
    ensures |Toggled(Toggled(s, id), id)| == |s|
  {
    var once := Toggled(s, id);
    var twice := Toggled(once, id);
    CountOfNoRepeats(twice, s);
  }

  /** Two lists without repetitions holding the same elements have the same
      length. */
  lemma CountOfNoRepeats(a: seq<string>, b: seq<string>)
    requires NoRepeats(a) && NoRepeats(b)
    requires forall x :: x in a <==> x in b
    ensures |a| == |b|
  {
    CountOfSubset(a, b);
    CountOfSubset(b, a);
  }

  /** A list without repetitions whose elements are all in another such
      list is no longer than it. */
  lemma {:induction false} CountOfSubset(a: seq<string>, b: seq<string>)
    requires NoRepeats(a) && NoRepeats(b)
    requires forall x :: x in a ==> x in b
    ensures |a| <= |b|
    decreases |a|
  {
    if a != [] {
      var x := a[0];
      assert NoRepeats(a[1..]);
      assert a == [x] + a[1..];
      assert x !in a[1..];
      var b' := Remove(b, x);
      RemovePresent(b, x);
      CountOfSubset(a[1..], b');
    }
  }

  /** Removing a present element of a list without repetitions shortens it
      by one. */
  lemma {:induction false} RemovePresent(s: seq<string>, x: string)
    requires NoRepeats(s) && x in s
    ensures |Remove(s, x)| == |s| - 1
    decreases |s|
  {
    if s[0] == x {
      assert x !in s[1..];
      RemoveAbsent(s[1..], x);
    } else {
      assert NoRepeats(s[1..]);
      RemovePresent(s[1..], x);
    }
  }

  lemma {:induction false} RemoveAbsent(s: seq<string>, x: string)
    requires x !in s
    ensures Remove(s, x) == s
    decreases |s|
  {
    if s != [] {
      RemoveAbsent(s[1..], x);
    }
  }

  class Panel {
    /** Recomputed on every render from the props (line 70). */
    var storageKey: string
    var checked: seq<string>
    /** The browser's local storage, key by key. */
    var storage: map<string, seq<string>>

    predicate Valid()
      reads this
    {
      NoRepeats(checked)
    }

    /** The first render: nothing is checked yet. */
    constructor (projectId: Option<string>, sessionId: Option<string>, storage: map<string, seq<string>>)
      ensures Valid()
      ensures storageKey == StorageKey(projectId, sessionId)
      ensures checked == [] && this.storage == storage
    {
      storageKey := StorageKey(projectId, sessionId);
      checked := [];
      this.storage := storage;
    }

    /** Lines 73-78: a list saved under the key replaces the checked set. */
    method Load()
      requires Valid()
      modifies this`checked
      ensures Valid()
      ensures storageKey in storage ==> checked == Dedup(storage[storageKey])
      ensures storageKey !in storage ==> checked == old(checked)
      ensures storageKey in storage && NoRepeats(storage[storageKey]) ==> checked == storage[storageKey]
    {
      if storageKey in storage {
        checked := Dedup(storage[storageKey]);
        if NoRepeats(storage[storageKey]) {
          DedupOfNoRepeats(storage[storageKey]);
        }
      }
    }

    /** A later render with new props: the key is recomputed, and when it
        differs from the last one the load effect (keyed on `[storageKey]`)
        runs again under the new key. A panel first rendered before the
        session id arrived thus picks up the list saved under that id; with
        nothing saved there the checked set stays as it was. */
    method Rerender(projectId: Option<string>, sessionId: Option<string>)
      requires Valid()
      modifies this`storageKey, this`checked
      ensures Valid()
      ensures storageKey == StorageKey(projectId, sessionId)
      ensures storageKey != old(storageKey) && storageKey in storage ==> checked == Dedup(storage[storageKey])
      ensures storageKey == old(storageKey) || storageKey !in storage ==> checked == old(checked)
    {
      var key := StorageKey(projectId, sessionId);
      if key != storageKey {
        storageKey := key;
        Load();
      }
    }

    /** Lines 81-92: flip one question, then store the new set as a list. */
    method Toggle(id: string)
      requires Valid()
      modifies this`checked, this`storage
      ensures Valid()
      ensures storageKey == old(storageKey)
      ensures id in checked <==> id !in old(checked)
      ensures forall x :: x != id ==> (x in checked <==> x in old(checked))
      ensures checked == Toggled(old(checked), id)
      ensures storage == old(storage)[storageKey := checked]
    {
      var newSet := checked;
      if id in newSet {
        newSet := Remove(newSet, id);
      } else {
        newSet := newSet + [id];
      }
      storage := storage[storageKey := newSet];
      checked := newSet;
    }
  }
}
