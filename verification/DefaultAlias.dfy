/** The alias a profile gets when none is given (`src/profile_registry.rs`). */
module DefaultAlias {

  predicate IsAliasChar(ch: char) {
    'a' <= ch <= 'z' || 'A' <= ch <= 'Z' || '0' <= ch <= '9' || ch == '-' || ch == '_'
  }

  function Mapped(id: string): (alias: string)
    ensures |alias| == |id|
    ensures forall i :: 0 <= i < |id| ==> alias[i] == if IsAliasChar(id[i]) then id[i] else '-'
  {
    seq(|id|, i requires 0 <= i < |id| => if IsAliasChar(id[i]) then id[i] else '-')
  }

  predicate HasDoubleDash(s: string) {
    exists i :: 0 <= i < |s| - 1 && s[i] == '-' && s[i + 1] == '-'
  }

  // `replace("--", "-")`: occurrences are found from the left and do not overlap.
  function ReplaceDoubleDashes(s: string): string {
    if |s| >= 2 && s[0] == '-' && s[1] == '-' then "-" + ReplaceDoubleDashes(s[2..])
    else if s == "" then ""
    else [s[0]] + ReplaceDoubleDashes(s[1..])
  }

  // Every run of dashes becomes one dash.
  function Collapse(s: string): string {
    if s == "" then ""
    else if |s| >= 2 && s[0] == '-' && s[1] == '-' then Collapse(s[1..])
    else [s[0]] + Collapse(s[1..])
  }

  function TrimDashes(s: string): string {
    if s != "" && s[0] == '-' then TrimDashes(s[1..])
    else if s != "" && s[|s| - 1] == '-' then TrimDashes(s[..|s| - 1])
    else s
  }

  predicate IsClean(s: string) {
    && !HasDoubleDash(s)
    && (s != "" ==> s[0] != '-' && s[|s| - 1] != '-')
    && forall i :: 0 <= i < |s| ==> IsAliasChar(s[i])
  }

  // Letters, digits, '-' and '_'; no two dashes side by side and none at the ends.
  ghost predicate IsDashed(s: string) {
    && (forall i :: 0 <= i < |s| ==>
          'a' <= s[i] <= 'z' || 'A' <= s[i] <= 'Z' || '0' <= s[i] <= '9' || s[i] == '-' || s[i] == '_')
    && (forall i :: 0 < i < |s| && s[i] == '-' ==> s[i - 1] != '-')
    && (s != "" ==> s[0] != '-' && s[|s| - 1] != '-')
  }

  lemma {:induction false} ReplaceKeepsCollapse(s: string)
    ensures Collapse(ReplaceDoubleDashes(s)) == Collapse(s)
    ensures s != "" ==> ReplaceDoubleDashes(s) != "" && ReplaceDoubleDashes(s)[0] == s[0]
    ensures forall i :: 0 <= i < |ReplaceDoubleDashes(s)| ==> ReplaceDoubleDashes(s)[i] in s
  {
    if |s| >= 2 && s[0] == '-' && s[1] == '-' {
      var rest := ReplaceDoubleDashes(s[2..]);
      ReplaceKeepsCollapse(s[2..]);
      assert ReplaceDoubleDashes(s)[1..] == rest;
      assert s[1..][1..] == s[2..];
    } else if s != "" {
      ReplaceKeepsCollapse(s[1..]);
      assert ReplaceDoubleDashes(s)[1..] == ReplaceDoubleDashes(s[1..]);
    }
  }

  lemma {:induction false} ReplaceShrinks(s: string)
    ensures |ReplaceDoubleDashes(s)| <= |s|
    ensures HasDoubleDash(s) ==> |ReplaceDoubleDashes(s)| < |s|
  {
    if |s| >= 2 && s[0] == '-' && s[1] == '-' {
      ReplaceShrinks(s[2..]);
    } else if s != "" {
      ReplaceShrinks(s[1..]);
      if HasDoubleDash(s) {
        var i :| 0 <= i < |s| - 1 && s[i] == '-' && s[i + 1] == '-';
        assert s[1..][i - 1] == '-' && s[1..][i] == '-';
      }
    }
  }

  lemma NoneInTail(s: string)
    requires s != "" && !HasDoubleDash(s)
    ensures !HasDoubleDash(s[1..])
  {
  }

  lemma {:induction false} NothingToCollapse(s: string)
    requires !HasDoubleDash(s)
    ensures Collapse(s) == s
  {
    if s != "" {
      NoneInTail(s);
      NothingToCollapse(s[1..]);
    }
  }

  lemma {:induction false} TrimmedIsClean(s: string)
    requires !HasDoubleDash(s) && forall i :: 0 <= i < |s| ==> IsAliasChar(s[i])
    ensures IsClean(TrimDashes(s))
  {
    if s != "" && s[0] == '-' {
      NoneInTail(s);
      TrimmedIsClean(s[1..]);
    } else if s != "" && s[|s| - 1] == '-' {
      TrimmedIsClean(s[..|s| - 1]);
    }
  }

  // The alias is the id with each run of foreign characters and dashes as one dash,
  // and none at the ends.
  method Compute(id: string) returns (alias: string)
    ensures alias == TrimDashes(Collapse(Mapped(id)))
    ensures IsClean(alias) && IsDashed(alias)
  {
    alias := Mapped(id);
    while HasDoubleDash(alias)
      invariant Collapse(alias) == Collapse(Mapped(id))
      invariant forall i :: 0 <= i < |alias| ==> IsAliasChar(alias[i])
      decreases |alias|
    {
      ReplaceKeepsCollapse(alias);
      ReplaceShrinks(alias);
      ghost var before := alias;
      alias := ReplaceDoubleDashes(alias);
      forall i | 0 <= i < |alias| ensures IsAliasChar(alias[i]) {
        var j :| 0 <= j < |before| && before[j] == alias[i];
      }
    }
    NothingToCollapse(alias);
    TrimmedIsClean(alias);
    alias := TrimDashes(alias);
  }

  // An id that is already an alias is its own alias.
  lemma CleanIdIsKept(id: string)
    requires IsDashed(id)
    ensures TrimDashes(Collapse(Mapped(id))) == id
  {
    assert Mapped(id) == id;
    NothingToCollapse(id);
  }
}
