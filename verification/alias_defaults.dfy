/**
 * The page's start-up defaults: the provider name and the comma-separated
 * alias list, each taken from configuration when it is set.
 */
module AliasDefaults {
  import opened Results
  import Text
  import InputSection

  /** The names the built-in alias list spells. */
  const BuiltInNames: seq<string> := ["OpenAI", "Open AI", "OpenAI Inc.", "ChatGPT", "GPT-4o", "GPT-5", "Sora", "DALL-E"]

  /** Names as they stand between the commas of a ", "-separated list: all but the first after a space. */
  function Pad(names: seq<string>): (pieces: seq<string>)
    ensures |pieces| == |names|
    ensures forall i :: 0 <= i < |names| ==> pieces[i] == if i == 0 then names[i] else [' '] + names[i]
  {
    seq(|names|, i requires 0 <= i < |names| => if i == 0 then names[i] else [' '] + names[i])
  }

  /** The pieces of the built-in alias list between its commas. */
  const BuiltInPieces: seq<string> := Pad(BuiltInNames)

  /**
   * The built-in alias list used when the environment sets none,
   * "OpenAI, Open AI, OpenAI Inc., ChatGPT, GPT-4o, GPT-5, Sora, DALL-E",
   * written as its pieces joined by commas.
   */
  const DefaultAliasSource: string := Text.Join(BuiltInPieces, ',')

  /** `.map((alias) => alias.trim())` */
  function TrimAll(parts: seq<string>): (ts: seq<string>)
    ensures |ts| == |parts|
    ensures forall i :: 0 <= i < |parts| ==> ts[i] == Text.Trim(parts[i]) && Text.IsTrimmed(ts[i])
  {
    seq(|parts|, i requires 0 <= i < |parts| => Text.Trim(parts[i]))
  }

  /** `.filter(Boolean)` on strings: the empty ones are dropped, the rest keep their order (`DropEmptyIsRemoval`). */
  function DropEmpty(ts: seq<string>): (r: seq<string>)
    ensures |r| <= |ts|
    ensures forall x :: x in r <==> x in ts && x != []
  {
    if |ts| == 0 then []
    else
      var front := DropEmpty(ts[..|ts| - 1]);
      Text.LastSplit(ts);
      if ts[|ts| - 1] == [] then front else front + [ts[|ts| - 1]]
  }

  /**
   * Dropping the empty strings is removing the alias "" as the form's remove
   * button does, so the kept entries keep their order (`InputSection.RemoveAppend`).
   */
  lemma {:induction false} DropEmptyIsRemoval(ts: seq<string>)
    ensures DropEmpty(ts) == InputSection.RemoveAlias(ts, "")
  {
    if |ts| > 0 {
      DropEmptyIsRemoval(ts[..|ts| - 1]);
    }
  }

  /** Every non-empty entry is kept as often as it occurs. */
  lemma DropEmptyKeepsCounts(ts: seq<string>)
    ensures forall x :: x != [] ==> multiset(DropEmpty(ts))[x] == multiset(ts)[x]
  {
    DropEmptyIsRemoval(ts);
  }

  /** Dropping keeps a list of trimmed strings trimmed. */
  lemma {:induction false} DropEmptyKeepsTrimmed(ts: seq<string>)
    requires forall i :: 0 <= i < |ts| ==> Text.IsTrimmed(ts[i])
    ensures InputSection.AllTrimmed(DropEmpty(ts))
  {
    if |ts| > 0 {
      DropEmptyKeepsTrimmed(ts[..|ts| - 1]);
    }
  }

  /** Nothing is dropped from a list without empty entries. */
  lemma {:induction false} DropEmptyKeepsNonEmpty(ts: seq<string>)
    requires forall i :: 0 <= i < |ts| ==> ts[i] != []
    ensures DropEmpty(ts) == ts
  {
    if |ts| > 0 {
      DropEmptyKeepsNonEmpty(ts[..|ts| - 1]);
      Text.LastSplit(ts);
    }
  }

  /** The aliases read from some pieces are exactly the pieces' non-empty trimmed forms. */
  lemma AliasMembers(parts: seq<string>)
    ensures forall x :: x in DropEmpty(TrimAll(parts)) <==> x != [] && exists i :: 0 <= i < |parts| && x == Text.Trim(parts[i])
  {
    var ts := TrimAll(parts);
    forall x | x in ts
      ensures exists i :: 0 <= i < |parts| && x == Text.Trim(parts[i])
    {
      var i :| 0 <= i < |ts| && ts[i] == x;
      assert x == Text.Trim(parts[i]);
    }
  }

  /**
   * A comma-separated alias list as the page reads it: split on ",", each
   * piece trimmed, the empty ones dropped.
   */
  function ParseAliasList(source: string): (r: seq<string>)
    ensures InputSection.AllTrimmed(r)
    ensures var parts := Text.Split(source, ',');
      forall x :: x in r <==> x != [] && exists i :: 0 <= i < |parts| && x == Text.Trim(parts[i])
  {
    var parts := Text.Split(source, ',');
    var ts := TrimAll(parts);
    DropEmptyKeepsTrimmed(ts);
    AliasMembers(parts);
    DropEmpty(ts)
  }

  /**
   * The parsed aliases are the trimmed pieces with every empty one removed:
   * each non-empty piece is kept as often as it occurs, in the order of the
   * source (`InputSection.RemoveAlias`, `InputSection.RemoveAppend`).
   */
  lemma AliasListOrder(source: string)
    ensures ParseAliasList(source) == InputSection.RemoveAlias(TrimAll(Text.Split(source, ',')), "")
  {
    DropEmptyIsRemoval(TrimAll(Text.Split(source, ',')));
  }

  /** `DEFAULT_PROVIDER_ALIASES`: the configured list, or the built-in one when none is configured. */
  function DefaultProviderAliases(configured: Option<string>): (r: seq<string>)
    ensures configured.Some? ==> r == ParseAliasList(configured.value)
    ensures configured.None? ==> r == ParseAliasList(DefaultAliasSource)
  {
    ParseAliasList(configured.GetOr(DefaultAliasSource))
  }

  /** `DEFAULT_PROVIDER_NAME`: the configured name, "OpenAI" only when none is configured. */
  function DefaultProviderName(configured: Option<string>): (r: string)
    ensures configured.None? ==> r == "OpenAI"
    ensures configured.Some? ==> r == configured.value
  {
    configured.GetOr("OpenAI")
  }

  /** Removing one leading space from a trimmed string is what `trim` does. */
  lemma TrimOneSpace(s: string)
    requires s != [] && Text.IsTrimmed(s)
    ensures Text.Trim([' '] + s) == s
  {
    var t := [' '] + s;
    assert t[1..] == s;
    assert Text.LeadingSpaces(t) == 1;
    assert Text.TrailingSpaces(t) == 0;
    assert t[1..|t|] == s;
  }

  /** Every built-in name is non-empty, has no surrounding whitespace and no comma. */
  lemma BuiltInNamesClean()
    ensures forall i :: 0 <= i < |BuiltInNames| ==> BuiltInNames[i] != [] && Text.IsTrimmed(BuiltInNames[i])
    ensures forall i :: 0 <= i < |BuiltInNames| ==> ',' !in BuiltInNames[i]
  {
  }

  /** Trimming the pieces of a ", "-separated list gives back its names. */
  lemma TrimPad(names: seq<string>)
    requires forall i :: 0 <= i < |names| ==> names[i] != [] && Text.IsTrimmed(names[i])
    ensures TrimAll(Pad(names)) == names
  {
    var ts := TrimAll(Pad(names));
    forall i | 0 <= i < |names|
      ensures ts[i] == names[i]
    {
      if i == 0 {
        Text.TrimOfTrimmed(names[i]);
      } else {
        TrimOneSpace(names[i]);
      }
    }
  }

  /** Padding adds no comma. */
  lemma PadNoComma(names: seq<string>)
    requires forall i :: 0 <= i < |names| ==> ',' !in names[i]
    ensures forall i :: 0 <= i < |names| ==> ',' !in Pad(names)[i]
  {
  }

  /** The built-in list reads as the eight names it spells. */
  lemma BuiltInAliases(configured: Option<string>)
    requires configured.None?
    ensures DefaultProviderAliases(configured) == BuiltInNames
  {
    BuiltInNamesClean();
    TrimPad(BuiltInNames);
    PadNoComma(BuiltInNames);
    AliasesOfJoin(BuiltInPieces, BuiltInNames);
  }

  /** A list spelled as comma-joined pieces reads as the pieces' non-empty trimmed forms. */
  lemma AliasesOfJoin(pieces: seq<string>, names: seq<string>)
    requires |pieces| >= 1 && forall i :: 0 <= i < |pieces| ==> ',' !in pieces[i]
    requires TrimAll(pieces) == names
    requires forall i :: 0 <= i < |names| ==> names[i] != []
    ensures DefaultProviderAliases(Some(Text.Join(pieces, ','))) == names
  {
    var src := Text.Join(pieces, ',');
    assert Text.Split(src, ',') == pieces by {
      Text.SplitJoin(pieces, ',');
    }
    assert DropEmpty(names) == names by {
      DropEmptyKeepsNonEmpty(names);
    }
    assert DefaultProviderAliases(Some(src)) == DropEmpty(TrimAll(Text.Split(src, ',')));
  }
}
