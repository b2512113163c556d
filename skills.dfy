/** The skill-list handling both scorers share: turning the user's comma-separated skill
    text into a list of normalised entries, and the skill-gap filter
    `[skill for skill in skills if not any(user_skill in skill.lower() ...)]`. */
module Skills {
  import opened Text

  /** `[skill.strip().lower() for skill in user_skills.split(',')]`: one entry per
      comma-separated piece, trimmed and lower-cased. */
  function NormalizeSkills(userSkills: string): (r: seq<string>)
    ensures |r| == |Split(userSkills, ',')| >= 1
  {
    var parts := Split(userSkills, ',');
    seq(|parts|, k requires 0 <= k < |parts| => Lower(Strip(parts[k])))
  }

  /** Each normalised entry holds no comma and no upper-case letter, and neither starts
      nor ends with whitespace. */
  lemma NormalizedEntries(userSkills: string, k: nat)
    requires k < |NormalizeSkills(userSkills)|
    ensures var e := NormalizeSkills(userSkills)[k];
      && ',' !in e
      && (forall i :: 0 <= i < |e| ==> !IsUpper(e[i]))
      && (e == [] || (!IsSpace(e[0]) && !IsSpace(e[|e| - 1])))
  {
    SplitPiecesNoSep(userSkills, ',');
    var piece := Split(userSkills, ',')[k];
    var stripped := Strip(piece);
    StripFacts(piece);
    LowerFacts(stripped);
    var i := |piece| - |TrimLeft(piece)|;
    forall c | c in stripped ensures c in piece {
      var j :| 0 <= j < |stripped| && stripped[j] == c;
      assert piece[i + j] == c;
    }
    forall j | 0 <= j < |stripped| ensures Lower(stripped)[j] != ',' {
      assert stripped[j] in stripped;
    }
  }

  /** The user skill list of the skill-gap analysis: the normalised entries when the
      skill text is non-empty, and no entries at all when it is empty. */
  function UserSkillList(userSkills: string): (r: seq<string>)
    ensures r == [] <==> userSkills == []
  {
    if userSkills == [] then [] else NormalizeSkills(userSkills)
  }

  /** Some user entry from position `j` on is a substring of `lowered`. */
  predicate CoveredFrom(userList: seq<string>, lowered: string, j: nat)
    decreases |userList| - j
  {
    j < |userList| && (IsSubstring(userList[j], lowered) || CoveredFrom(userList, lowered, j + 1))
  }

  /** `any(user_skill in skill.lower() for user_skill in user_skills)` */
  predicate Covered(userList: seq<string>, skill: string) {
    CoveredFrom(userList, Lower(skill), 0)
  }

  /** The recursive test agrees with "some user entry is a substring of the lower-cased
      skill". */
  lemma CoveredIff(userList: seq<string>, skill: string)
    ensures Covered(userList, skill) <==> exists u :: u in userList && IsSubstring(u, Lower(skill))
  {
    if exists u :: u in userList && IsSubstring(u, Lower(skill)) {
      var u :| u in userList && IsSubstring(u, Lower(skill));
      var k :| 0 <= k < |userList| && userList[k] == u;
      CoveredWitness(userList, Lower(skill), 0, k);
    } else {
      CoveredFromNone(userList, Lower(skill), 0);
    }
  }

  lemma {:induction false} CoveredWitness(userList: seq<string>, lowered: string, j: nat, k: nat)
    requires j <= k < |userList| && IsSubstring(userList[k], lowered)
    ensures CoveredFrom(userList, lowered, j)
    decreases k - j
  {
    if j < k {
      CoveredWitness(userList, lowered, j + 1, k);
    }
  }

  lemma {:induction false} CoveredFromNone(userList: seq<string>, lowered: string, j: nat)
    requires forall u :: u in userList ==> !IsSubstring(u, lowered)
    ensures !CoveredFrom(userList, lowered, j)
    decreases |userList| - j
  {
    if j < |userList| {
      assert userList[j] in userList;
      CoveredFromNone(userList, lowered, j + 1);
    }
  }

  /** The skills no user entry covers, in their order in `skills`. */
  function Uncovered(userList: seq<string>, skills: seq<string>): (r: seq<string>)
    ensures |r| <= |skills|
    ensures forall s :: s in r ==> s in skills && !Covered(userList, s)
  {
    if skills == [] then []
    else
      var last := skills[|skills| - 1];
      var init := skills[..|skills| - 1];
      assert forall s :: s in init ==> s in skills;
      Uncovered(userList, init) + (if Covered(userList, last) then [] else [last])
  }

  /** Filtering one more skill of a prefix appends it exactly when it is not covered. */
  lemma UncoveredSnoc(userList: seq<string>, skills: seq<string>, i: nat)
    requires i < |skills|
    ensures Uncovered(userList, skills[..i + 1])
         == Uncovered(userList, skills[..i]) + (if Covered(userList, skills[i]) then [] else [skills[i]])
  {
    assert skills[..i + 1][..i] == skills[..i];
  }

  /** How many of `skills` some user entry covers. */
  function CoveredCount(userList: seq<string>, skills: seq<string>): (n: nat)
    ensures n <= |skills|
  {
    if skills == [] then 0
    else
      CoveredCount(userList, skills[..|skills| - 1])
      + (if Covered(userList, skills[|skills| - 1]) then 1 else 0)
  }

  /** `a` is `b` with some elements left out, order kept. */
  predicate IsSubsequence<T(==)>(a: seq<T>, b: seq<T>)
    decreases |b|
  {
    if a == [] then true
    else if b == [] then false
    else if a[|a| - 1] == b[|b| - 1] then IsSubsequence(a[..|a| - 1], b[..|b| - 1])
    else IsSubsequence(a, b[..|b| - 1])
  }

  lemma {:induction false} UncoveredIsSubsequence(userList: seq<string>, skills: seq<string>)
    ensures IsSubsequence(Uncovered(userList, skills), skills)
    decreases |skills|
  {
    if skills != [] {
      var init := skills[..|skills| - 1];
      UncoveredIsSubsequence(userList, init);
      var last := skills[|skills| - 1];
      assert skills == init + [last];
      if Covered(userList, last) {
        SubsequenceExtend(Uncovered(userList, init), init, last);
        assert Uncovered(userList, skills) == Uncovered(userList, init) + [];
        assert Uncovered(userList, init) + [] == Uncovered(userList, init);
      } else {
        var r := Uncovered(userList, skills);
        assert r[..|r| - 1] == Uncovered(userList, init);
      }
    }
  }

  lemma {:induction false} SubsequenceExtend<T>(a: seq<T>, b: seq<T>, x: T)
    requires IsSubsequence(a, b)
    ensures IsSubsequence(a, b + [x])
    decreases |b|, 1
  {
    if a != [] {
      var bx := b + [x];
      assert bx[..|bx| - 1] == b;
      if a[|a| - 1] == x {
        SubsequenceShrink(a, b);
      }
    }
  }

  lemma {:induction false} SubsequenceShrink<T>(a: seq<T>, b: seq<T>)
    requires IsSubsequence(a, b)
    ensures a != [] ==> IsSubsequence(a[..|a| - 1], b)
    decreases |b|, 0
  {
    if a != [] && b != [] {
      var a' := a[..|a| - 1];
      if a[|a| - 1] != b[|b| - 1] {
        SubsequenceShrink(a, b[..|b| - 1]);
      }
      SubsequenceExtend(a', b[..|b| - 1], b[|b| - 1]);
      assert b[..|b| - 1] + [b[|b| - 1]] == b;
    }
  }

  lemma {:induction false} UncoveredComplete(userList: seq<string>, skills: seq<string>, s: string)
    requires s in skills && !Covered(userList, s)
    ensures s in Uncovered(userList, skills)
    decreases |skills|
  {
    var init := skills[..|skills| - 1];
    if s != skills[|skills| - 1] {
      assert skills == init + [skills[|skills| - 1]];
      UncoveredComplete(userList, init, s);
    }
  }

  /** With no user entries nothing is covered, so every skill is a gap. */
  lemma {:induction false} UncoveredNoUserSkills(skills: seq<string>)
    ensures Uncovered([], skills) == skills
    decreases |skills|
  {
    if skills != [] {
      UncoveredNoUserSkills(skills[..|skills| - 1]);
      assert skills[..|skills| - 1] + [skills[|skills| - 1]] == skills;
    }
  }

  /** Every skill is either covered or a gap. */
  lemma {:induction false} CoveredPlusUncovered(userList: seq<string>, skills: seq<string>)
    ensures CoveredCount(userList, skills) + |Uncovered(userList, skills)| == |skills|
    decreases |skills|
  {
    if skills != [] {
      CoveredPlusUncovered(userList, skills[..|skills| - 1]);
    }
  }

  /** Filtering a prefix of the skills yields a prefix of the filtered skills. */
  lemma {:induction false} UncoveredOfPrefix(userList: seq<string>, skills: seq<string>, k: nat)
    requires k <= |skills|
    ensures Uncovered(userList, skills[..k]) <= Uncovered(userList, skills)
    decreases |skills| - k
  {
    if k < |skills| {
      var init := skills[..|skills| - 1];
      assert init[..k] == skills[..k];
      UncoveredOfPrefix(userList, init, k);
    } else {
      assert skills[..k] == skills;
    }
  }

  /** An empty user entry, as in "python,", is a substring of every skill. */
  lemma {:induction false} EmptyEntryCoversAll(userList: seq<string>, skills: seq<string>)
    requires [] in userList
    ensures Uncovered(userList, skills) == []
    ensures CoveredCount(userList, skills) == |skills|
    decreases |skills|
  {
    if skills != [] {
      assert IsSubstring([], Lower(skills[|skills| - 1]));
      CoveredIff(userList, skills[|skills| - 1]);
      EmptyEntryCoversAll(userList, skills[..|skills| - 1]);
    }
  }
}
