/**
 * The transcript form: submit gating and the editing of the provider-alias
 * list (`addAlias`, `removeAlias`, `handleAliasKeyDown`).
 */
module InputSection {
  import Text

  /** `canSubmit`: some non-whitespace text, and no analysis in flight. */
  function CanSubmit(text: string, isLoading: bool): (b: bool)
    ensures b <==> !isLoading && exists i :: 0 <= i < |text| && !Text.IsSpace(text[i])
  {
    Text.TrimNonEmpty(text);
    |Text.Trim(text)| > 0 && !isLoading
  }

  /** The alias list (owned by the page) together with the form's draft input. */
  datatype AliasForm = AliasForm(aliases: seq<string>, draft: string)

  /** `addAlias` */
  function AddAlias(f: AliasForm): (r: AliasForm)
    ensures Text.AllSpace(f.draft) ==> r == f
    ensures !Text.AllSpace(f.draft) ==> r.draft == ""
    ensures Text.Trim(f.draft) in f.aliases ==> r.aliases == f.aliases
    ensures !Text.AllSpace(f.draft) && Text.Trim(f.draft) !in f.aliases ==> r.aliases == f.aliases + [Text.Trim(f.draft)]
  {
    var candidate := Text.Trim(f.draft);
    if candidate == [] then f
    else if candidate in f.aliases then f.(draft := "")
    else AliasForm(f.aliases + [candidate], "")
  }

  /** No alias is listed twice. */
  predicate NoDuplicates(s: seq<string>) {
    forall i, j :: 0 <= i < j < |s| ==> s[i] != s[j]
  }

  /** Every listed alias is non-empty and has no surrounding whitespace. */
  predicate AllTrimmed(s: seq<string>) {
    forall i :: 0 <= i < |s| ==> s[i] != [] && Text.IsTrimmed(s[i])
  }

  /** Adding keeps the list free of duplicates, and adds only trimmed, non-empty entries. */
  lemma AddAliasKeepsListClean(f: AliasForm)
    requires NoDuplicates(f.aliases) && AllTrimmed(f.aliases)
    ensures NoDuplicates(AddAlias(f).aliases) && AllTrimmed(AddAlias(f).aliases)
  {
  }

  /** `removeAlias`: every occurrence of `alias` is dropped; the rest keep their order. */
  function RemoveAlias(s: seq<string>, alias: string): (r: seq<string>)
    ensures alias !in r
    ensures forall x :: x in r <==> x in s && x != alias
    ensures forall x :: x != alias ==> multiset(r)[x] == multiset(s)[x]
  {
    if |s| == 0 then []
    else
      var front := RemoveAlias(s[..|s| - 1], alias);
      assert s == s[..|s| - 1] + [s[|s| - 1]];
      if s[|s| - 1] == alias then front else front + [s[|s| - 1]]
  }

  /** Removal distributes over concatenation, so the order of the kept entries is the original one. */
  lemma {:induction false} RemoveAppend(a: seq<string>, b: seq<string>, alias: string)
    ensures RemoveAlias(a + b, alias) == RemoveAlias(a, alias) + RemoveAlias(b, alias)
  {
    if |b| > 0 {
      var b' := b[..|b| - 1];
      RemoveAppend(a, b', alias);
      assert (a + b)[..|a + b| - 1] == a + b';
    } else {
      assert a + b == a;
    }
  }

  /** Removing an alias that is not listed changes nothing. */
  lemma {:induction false} RemoveAbsent(s: seq<string>, alias: string)
    requires alias !in s
    ensures RemoveAlias(s, alias) == s
  {
    if |s| > 0 {
      RemoveAbsent(s[..|s| - 1], alias);
      assert s == s[..|s| - 1] + [s[|s| - 1]];
    }
  }

  /** Adding a fresh alias and then removing it restores the list. */
  lemma AddThenRemove(f: AliasForm)
    requires Text.Trim(f.draft) != [] && Text.Trim(f.draft) !in f.aliases
    ensures RemoveAlias(AddAlias(f).aliases, Text.Trim(f.draft)) == f.aliases
  {
    var c := Text.Trim(f.draft);
    RemoveAppend(f.aliases, [c], c);
    RemoveAbsent(f.aliases, c);
    assert RemoveAlias([c], c) == [] by {
      assert [c][..0] == [];
    }
  }

  /** `handleAliasKeyDown`: Enter and "," add the draft (and are swallowed); other keys do nothing. */
  function HandleAliasKeyDown(f: AliasForm, key: string): (r: (AliasForm, bool))
    ensures r.1 <==> key == "Enter" || key == ","
    ensures r.1 ==> r.0 == AddAlias(f)
    ensures !r.1 ==> r.0 == f
  {
    if key == "Enter" || key == "," then (AddAlias(f), true) else (f, false)
  }
}
