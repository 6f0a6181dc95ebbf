/** The short title shown for a user story (script.js, `extractTestCaseTitle`). */
module Title {
  import opened Text

  const SoThat := " so that "
  const IWantTo := " I want to "
  /** The two literal parts of the pattern `^As a [^,]+?, I want to `. */
  const RoleLead := "As a "
  const RoleTail := ", I want to "

  /** `s` starts with `As a <role>, I want to ` where the role, `s[5..k]`, is
      a non-empty run of characters other than ',' and `s[k]` is its comma. */
  predicate RoleEndsAt(s: string, k: int) {
    |RoleLead| < k && k + |RoleTail| <= |s| && s[..|RoleLead|] == RoleLead
    && ',' !in s[|RoleLead|..k] && s[k..k + |RoleTail|] == RoleTail
  }

  /** The regular expression `^As a [^,]+?, I want to ` matches `s`. */
  ghost predicate HasRolePrefix(s: string) {
    exists k :: RoleEndsAt(s, k)
  }

  /** A role ends at the first comma after `As a `, so it can end in one place only. */
  lemma RoleEndIsFirstComma(s: string)
    ensures forall k | RoleEndsAt(s, k) :: IndexOf(s[|RoleLead|..], ",") == Some(k - |RoleLead|)
  {
    forall k | RoleEndsAt(s, k) ensures IndexOf(s[|RoleLead|..], ",") == Some(k - |RoleLead|) {
      RoleEndIsFirstCommaAt(s, k);
    }
  }

  lemma RoleEndIsFirstCommaAt(s: string, k: int)
    requires RoleEndsAt(s, k)
    ensures IndexOf(s[|RoleLead|..], ",") == Some(k - |RoleLead|)
  {
    var t := s[|RoleLead|..];
    var j := k - |RoleLead|;
    assert t[j] == ',' by {
      assert t[j] == s[k] == s[k..k + |RoleTail|][0];
      assert RoleTail[0] == ',';
    }
    CharOccurs(t, j, ',');
    forall i | 0 <= i < j ensures !OccursAt(t, ",", i) {
      assert t[i] == s[|RoleLead|..k][i];
      CharOccurs(t, i, ',');
    }
  }

  /** Where the matched prefix ends (the index of the role's comma), if the pattern matches. */
  function RolePrefixEnd(s: string): (r: Option<nat>)
    ensures r.Some? ==> RoleEndsAt(s, r.value)
    ensures HasRolePrefix(s) <==> r.Some?
  {
    RoleEndIsFirstComma(s);
    if |s| >= |RoleLead| && s[..|RoleLead|] == RoleLead then
      match IndexOf(s[|RoleLead|..], ",")
      case Some(k) =>
        if k > 0 && OccursAt(s, RoleTail, |RoleLead| + k) then
          assert ',' !in s[|RoleLead|..|RoleLead| + k] by {
            var t := s[|RoleLead|..];
            var role := s[|RoleLead|..|RoleLead| + k];
            forall i | 0 <= i < k ensures role[i] != ',' {
              assert !OccursAt(t, ",", i);
              CharOccurs(t, i, ',');
            }
          }
          assert RoleEndsAt(s, |RoleLead| + k);
          Some(|RoleLead| + k)
        else None
      case None => None
    else None
  }

  /** `s.replace(/^As a [^,]+?, I want to /, '')`: the text after the matched prefix. */
  function StripRolePrefix(s: string): (r: string)
    ensures |r| <= |s| && r == s[|s| - |r|..]
  {
    match RolePrefixEnd(s)
    case Some(k) => s[k + |RoleTail|..]
    case None => s
  }

  /** The prefix is removed exactly when the pattern matches, and what is
      removed ends with the role's ", I want to ". */
  lemma StripRolePrefixMatch(s: string)
    ensures HasRolePrefix(s) ==> RoleEndsAt(s, |s| - |StripRolePrefix(s)| - |RoleTail|)
    ensures !HasRolePrefix(s) ==> StripRolePrefix(s) == s
  {
    match RolePrefixEnd(s)
    case Some(k) =>
      assert |StripRolePrefix(s)| == |s| - k - |RoleTail|;
    case None =>
  }

  /** The trimmed tail of a separator-free part of `story` is a separator-free
      piece of `story`, no longer than the part. */
  lemma TrimmedTailPiece(story: string, part: string, at: int, from: int, tail: string, sep: string)
    requires OccursAt(story, part, at) && !Contains(part, sep)
    requires 0 <= from <= |part| && tail == part[from..]
    ensures var t := Trim(tail);
            |t| <= |part| && Contains(story, t) && Trimmed(t) && !Contains(t, sep)
  {
    assert OccursAt(part, tail, from);
    ContainsTrim(tail);
    ContainsTransitive(part, tail, Trim(tail));
    assert Contains(story, part);
    ContainsTransitive(story, part, Trim(tail));
    ContainsTransitive(part, Trim(tail), sep);
  }

  /** The title taken from a story with a " so that " clause. */
  lemma PurposeTitle(story: string)
    requires Contains(story, SoThat)
    ensures var t := Trim(StripRolePrefix(Split(story, SoThat)[0]));
            |t| < |story| && Contains(story, t) && Trimmed(t) && !Contains(t, SoThat)
    ensures IndexOf(story, SoThat).Some?
    ensures Split(story, SoThat)[0] == story[..IndexOf(story, SoThat).value]
  {
    var parts := Split(story, SoThat);
    var head := parts[0];
    assert |head| + |SoThat| <= |story| && IndexOf(story, SoThat) == Some(|head|) by {
      SplitHead(story, SoThat);
    }
    assert !Contains(head, SoThat);
    assert OccursAt(story, head, 0);
    TrimmedTailPiece(story, head, 0, |head| - |StripRolePrefix(head)|, StripRolePrefix(head), SoThat);
  }

  /** The trimmed second part of a split is a separator-free piece of the
      input, shorter than it. */
  lemma SecondPartPiece(story: string, sep: string)
    requires sep != [] && Contains(story, sep)
    ensures |Split(story, sep)| >= 2
    ensures var t := Trim(Split(story, sep)[1]);
            |t| < |story| && Contains(story, t) && Trimmed(t) && !Contains(t, sep)
  {
    var parts := Split(story, sep);
    var at := |parts[0]| + |sep|;
    assert |parts| >= 2 && at + |parts[1]| <= |story| && OccursAt(story, parts[1], at) by {
      SplitHead(story, sep);
      SplitSecond(story, sep);
    }
    var goal := parts[1];
    assert goal[0..] == goal;
    TrimmedTailPiece(story, goal, at, 0, goal, sep);
  }

  /** The title taken from a story with " I want to " and no " so that ". */
  lemma WantTitle(story: string)
    requires Contains(story, IWantTo)
    ensures var t := Trim(Split(story, IWantTo)[1]);
            |t| < |story| && Contains(story, t) && Trimmed(t) && !Contains(t, IWantTo)
    ensures IndexOf(story, IWantTo).Some?
    ensures var b := IndexOf(story, IWantTo).value + |IWantTo|;
            b <= |story| && Split(story, IWantTo)[1] == story[b..NextOrEnd(story, IWantTo, b)]
  {
    SecondPartPiece(story, IWantTo);
    SplitHead(story, IWantTo);
    SplitSecond(story, IWantTo);
  }

  /** `extractTestCaseTitle`: the part before the first " so that " without its
      role prefix, else the part after the first " I want to ", else the story. */
  function ExtractTitle(story: string): (title: string)
    ensures title == story <==> !Contains(story, SoThat) && !Contains(story, IWantTo)
    ensures Contains(story, title)
    ensures Contains(story, SoThat) ==> Trimmed(title) && !Contains(title, SoThat)
    ensures !Contains(story, SoThat) && Contains(story, IWantTo) ==>
              Trimmed(title) && !Contains(title, IWantTo)
    ensures Contains(story, SoThat) ==>
              IndexOf(story, SoThat).Some?
              && title == Trim(StripRolePrefix(story[..IndexOf(story, SoThat).value]))
    ensures !Contains(story, SoThat) && Contains(story, IWantTo) ==>
              IndexOf(story, IWantTo).Some?
              && var b := IndexOf(story, IWantTo).value + |IWantTo|;
                 b <= |story| && title == Trim(story[b..NextOrEnd(story, IWantTo, b)])
  {
    if Contains(story, SoThat) then
      PurposeTitle(story);
      Trim(StripRolePrefix(Split(story, SoThat)[0]))
    else if Contains(story, IWantTo) then
      WantTitle(story);
      Trim(Split(story, IWantTo)[1])
    else
      assert OccursAt(story, story, 0);
      story
  }

  /** `As a <role>, I want to ` is removed in full when the role has no comma. */
  lemma StripCanonical(role: string, goal: string)
    requires role != [] && ',' !in role
    ensures StripRolePrefix(RoleLead + role + RoleTail + goal) == goal
  {
    var head := RoleLead + role + RoleTail + goal;
    var k := |RoleLead| + |role|;
    assert head[..|RoleLead|] == RoleLead;
    assert head[|RoleLead|..k] == role;
    assert OccursAt(head, RoleTail, k) by {
      assert head[k..k + |RoleTail|] == RoleTail;
    }
    assert RoleEndsAt(head, k);
    RoleEndIsFirstComma(head);
    assert RolePrefixEnd(head) == Some(k);
    assert head[k + |RoleTail|..] == goal;
  }

  /** The title of a story written as `As a <role>, I want to <goal> so that
      <benefit>` is its goal, when the goal has no surrounding whitespace and the
      first " so that " is the one after the goal. */
  lemma CanonicalStoryTitle(role: string, goal: string, benefit: string)
    requires role != [] && ',' !in role
    requires Trimmed(goal)
    requires !Contains(RoleLead + role + RoleTail + goal + SoThat[..|SoThat| - 1], SoThat)
    ensures ExtractTitle(RoleLead + role + RoleTail + goal + SoThat + benefit) == goal
  {
    var head := RoleLead + role + RoleTail + goal;
    var story := head + SoThat + benefit;
    SplitAtFirst(head, SoThat, benefit);
    assert Contains(story, SoThat) by { assert OccursAt(story, SoThat, |head|); }
    StripCanonical(role, goal);
    TrimTrimmed(goal);
  }

  /** A story with no " so that " is titled by what follows its only " I want to ". */
  lemma WantOnlyStoryTitle(lead: string, goal: string)
    requires !Contains(lead + IWantTo + goal, SoThat)
    requires !Contains(lead + IWantTo[..|IWantTo| - 1], IWantTo)
    requires !Contains(goal, IWantTo)
    ensures ExtractTitle(lead + IWantTo + goal) == Trim(goal)
  {
    var story := lead + IWantTo + goal;
    SplitAtFirst(lead, IWantTo, goal);
    assert Contains(story, IWantTo) by { assert OccursAt(story, IWantTo, |lead|); }
    var g := Split(goal, IWantTo);
    SplitHead(goal, IWantTo);
    assert g == [goal] by {
      assert |g| == 1;
      assert Join(g, IWantTo) == g[0];
    }
  }
}
