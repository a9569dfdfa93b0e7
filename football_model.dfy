/** The football domain objects: FootballType, a type object with a
    supertype link and a set of subtypes, and Football, a base object with
    its type, an id and a list of player names. */
module FootballModel {
  import opened Outcomes
  import opened PlayerNames

  datatype FootballTypeScene =
    | ScoaringGoal | Tackle | SetPiece | RefereeDecision | Cheering | TeamPicture | DefaultScene

  datatype Tournament =
    | ChampionsLeague | EuropaLeauge | NationalLeague | NationalCup
    | EuropeanChampionship | WorldCup | ClubWorldCup | DefaultTournament

  /** `assertValidFootballTypeParameters`: a null scene, then a null
      tournament, throws IllegalArgumentException. */
  function AssertValidFootballTypeParameters(scene: Option<FootballTypeScene>, tournament: Option<Tournament>): (r: Outcome)
    ensures r.Pass? <==> scene.Some? && tournament.Some?
    ensures r.Fail? ==> r.error == IllegalArgument
  {
    if scene.None? then Fail(IllegalArgument)
    else if tournament.None? then Fail(IllegalArgument)
    else Pass
  }

  class FootballType {
    /** The setters accept null, so both enum fields may hold null. */
    var footballTypeInScene: Option<FootballTypeScene>
    var tournamentInScene: Option<Tournament>
    var superType: FootballType?
    var subTypes: set<FootballType>

    /** `FootballType(scene, tournament)` once the parameters passed the
        check: no supertype, no subtypes. */
    constructor(scene: FootballTypeScene, tournament: Tournament)
      ensures footballTypeInScene == Some(scene) && tournamentInScene == Some(tournament)
      ensures superType == null && subTypes == {}
    {
      footballTypeInScene := Some(scene);
      tournamentInScene := Some(tournament);
      superType := null;
      subTypes := {};
    }

    /** `FootballType()`: the default scene in the default tournament. */
    constructor Default()
      ensures footballTypeInScene == Some(DefaultScene) && tournamentInScene == Some(DefaultTournament)
      ensures superType == null && subTypes == {}
    {
      footballTypeInScene := Some(DefaultScene);
      tournamentInScene := Some(DefaultTournament);
      superType := null;
      subTypes := {};
    }

    /** `setFootballTypeInScene`: only the scene changes. */
    method SetFootballTypeInScene(scene: Option<FootballTypeScene>)
      modifies this
      ensures footballTypeInScene == scene
      ensures tournamentInScene == old(tournamentInScene)
      ensures superType == old(superType) && subTypes == old(subTypes)
    {
      footballTypeInScene := scene;
    }

    /** `setTournamentInScene`: only the tournament changes. */
    method SetTournamentInScene(tournament: Option<Tournament>)
      modifies this
      ensures tournamentInScene == tournament
      ensures footballTypeInScene == old(footballTypeInScene)
      ensures superType == old(superType) && subTypes == old(subTypes)
    {
      tournamentInScene := tournament;
    }

    /** `setSuperType`: only the supertype link changes; the new supertype's
        subtypes are not touched. */
    method SetSuperType(t: FootballType?)
      modifies this
      ensures superType == t
      ensures footballTypeInScene == old(footballTypeInScene) && tournamentInScene == old(tournamentInScene)
      ensures subTypes == old(subTypes)
    {
      superType := t;
    }

    /** `createInstance`: a new Football of this type. */
    method CreateInstance() returns (f: Football)
      ensures fresh(f) && fresh(f.playerNames)
      ensures f.footballType == this && f.footballId == 0 && f.playerNames.elements == []
    {
      f := new Football(this);
    }

    /** `addSubType`: null is rejected and nothing changes; otherwise the
        argument's supertype becomes this and it joins the subtypes, as a
        set member. Its previous supertype keeps it among its subtypes, and
        nothing checks for a cycle. */
    method AddSubType(footballType: FootballType?) returns (r: Outcome)
      modifies this, footballType
      ensures r.Fail? <==> footballType == null
      ensures r.Fail? ==> r.error == IllegalArgument
      ensures footballType == null ==> unchanged(this)
      ensures footballType != null ==> footballType.superType == this && footballType.IsSubType()
      ensures footballType != null ==> subTypes == old(subTypes) + {footballType}
      ensures footballTypeInScene == old(footballTypeInScene) && tournamentInScene == old(tournamentInScene)
      ensures footballType != null && footballType != this ==> superType == old(superType)
      ensures footballType != null && footballType != this ==>
                footballType.subTypes == old(footballType.subTypes)
                && footballType.footballTypeInScene == old(footballType.footballTypeInScene)
                && footballType.tournamentInScene == old(footballType.tournamentInScene)
      ensures footballType != null ==>
                var previous := old(footballType.superType);
                previous != null && previous != this ==> previous.subTypes == old(previous.subTypes)
    {
      if footballType == null {
        return Fail(IllegalArgument);
      }
      footballType.SetSuperType(this);
      subTypes := subTypes + {footballType};
      r := Pass;
    }

    /** `isSubType`: there is a supertype. */
    predicate IsSubType(): (r: bool)
      reads this
      ensures r <==> superType != null
    {
      superType != null
    }

    /** `hasEqualSuperType`: the scenes are the same enum constant; the
        tournaments play no part. A null argument, or a null scene in this
        type, throws NullPointerException. */
    function HasEqualSuperType(footballType: FootballType?): (r: Result<bool>)
      reads this, footballType
      ensures r.Err? <==> footballType == null || footballTypeInScene.None?
      ensures r.Err? ==> r.error == NullPointer
      ensures r.Ok? ==> (r.value <==> footballType.footballTypeInScene == footballTypeInScene)
    {
      if footballType == null then Err(NullPointer)
      else match footballTypeInScene
        case None => Err(NullPointer)
        case Some(scene) => Ok(footballType.footballTypeInScene == Some(scene))
    }

    /** `hasInstance`: null is rejected; otherwise the football's type is
        this type or, by a depth-first search over the subtypes, one below
        it. The search reads the subtype graph and changes nothing. */
    method HasInstance(football: Football?, ghost rank: map<FootballType, nat>) returns (r: Result<bool>)
      requires Ranked(rank) && this in rank
      ensures r.Err? <==> football == null
      ensures r.Err? ==> r.error == IllegalArgument
      ensures football != null ==> r == Ok(Reaches(this, football.footballType, rank))
      decreases rank[this]
    {
      if football == null {
        return Err(IllegalArgument);
      }
      if football.footballType == this {
        return Ok(true);
      }
      var rest := subTypes;
      while rest != {}
        invariant rest <= subTypes
        invariant forall s :: s in subTypes && s !in rest ==> !Reaches(s, football.footballType, rank)
        decreases |rest|
      {
        var s :| s in rest;
        var found := s.HasInstance(football, rank);
        if found.value {
          return Ok(true);
        }
        rest := rest - {s};
      }
      r := Ok(false);
    }
  }

  /** A ranking of the types reachable from those it names: every subtype
      of a ranked type is ranked lower. It exists exactly when the subtype
      graph below them has no cycle, which the search needs to end. */
  ghost predicate Ranked(rank: map<FootballType, nat>)
    reads rank.Keys
  {
    forall t, s :: t in rank && s in t.subTypes ==> s in rank && rank[s] < rank[t]
  }

  /** `target` is `t` or lies below it in the subtype graph. */
  ghost predicate Reaches(t: FootballType, target: FootballType, rank: map<FootballType, nat>)
    requires Ranked(rank) && t in rank
    reads rank.Keys
    decreases rank[t]
  {
    t == target || exists s :: s in t.subTypes && Reaches(s, target, rank)
  }

  /** Reaching is transitive: a football of a type below `mid` is an
      instance of every type above `mid`. */
  lemma {:induction false} ReachesTransitive(t: FootballType, mid: FootballType, target: FootballType,
                                             rank: map<FootballType, nat>)
    requires Ranked(rank) && t in rank && mid in rank
    requires Reaches(t, mid, rank) && Reaches(mid, target, rank)
    ensures Reaches(t, target, rank)
    decreases rank[t]
  {
    if t != mid {
      var s :| s in t.subTypes && Reaches(s, mid, rank);
      ReachesTransitive(s, mid, target, rank);
    }
  }

  class Football {
    const footballType: FootballType
    const playerNames: NameList
    /** A fresh counter per Football, started at 0. */
    var ticker: int
    const footballId: int

    /** `Football(footballType)` for a non-null type: the id is taken from
        the object's own new counter, so it is always 0. */
    constructor(footballType: FootballType)
      ensures this.footballType == footballType && footballId == 0 && ticker == 1
      ensures fresh(playerNames) && playerNames.elements == []
    {
      this.footballType := footballType;
      playerNames := new NameList();
      ticker := 1;
      footballId := 0;
    }

    /** `getFootballId` */
    function GetFootballId(): (r: int)
      ensures r == footballId
    {
      footballId
    }

    /** `getPlayerNames`: the list itself, not a copy, so changes made
        through it are changes to this football. */
    function GetPlayerNames(): (r: NameList)
      ensures r == playerNames
    {
      playerNames
    }

    /** `addSinglePlayerName`: the name must pass `assertIsValidString`,
        which is a parameter here; then it is appended. */
    method AddSinglePlayerName(name: JString, isValidString: JString -> bool) returns (r: Outcome)
      modifies playerNames
      ensures r.Fail? <==> !isValidString(name)
      ensures r.Fail? ==> r.error == InvalidString
      ensures !isValidString(name) ==> playerNames.elements == old(playerNames.elements)
      ensures isValidString(name) ==> playerNames.elements == old(playerNames.elements) + [name]
    {
      if !isValidString(name) {
        return Fail(InvalidString);
      }
      playerNames.Add(name);
      r := Pass;
    }

    /** `addMultiplePlayerNames`: a null list is rejected; otherwise every
        name is appended in order, without validation or deduplication. */
    method AddMultiplePlayerNames(nameList: Option<seq<JString>>) returns (r: Outcome)
      modifies playerNames
      ensures r.Fail? <==> nameList.None?
      ensures r.Fail? ==> r.error == IllegalArgument
      ensures nameList.None? ==> playerNames.elements == old(playerNames.elements)
      ensures nameList.Some? ==> playerNames.elements == old(playerNames.elements) + nameList.value
    {
      if nameList.None? {
        return Fail(IllegalArgument);
      }
      var names := nameList.value;
      for k := 0 to |names|
        invariant playerNames.elements == old(playerNames.elements) + names[..k]
      {
        playerNames.Add(names[k]);
        assert names[..k + 1] == names[..k] + [names[k]];
      }
      assert names[..|names|] == names;
      r := Pass;
    }

    /** `removeSinglePlayer`: null and the `""` literal itself (a reference
        comparison) are refused; otherwise the first matching name is
        removed, and the result says whether there was one. */
    method RemoveSinglePlayer(name: JString) returns (r: bool)
      modifies playerNames
      ensures name.Null? || name == EMPTY_LITERAL ==> !r && playerNames.elements == old(playerNames.elements)
      ensures !(name.Null? || name == EMPTY_LITERAL) ==>
                (r <==> Occurs(old(playerNames.elements), name))
                && playerNames.elements == RemoveFirst(old(playerNames.elements), name)
    {
      if name != Null && name != EMPTY_LITERAL {
        if playerNames.Contains(name) {
          var _ := playerNames.Remove(name);
          return true;
        }
      }
      r := false;
    }

    /** `removeMultiplePlayers`: a null list is rejected; otherwise each
        name in turn removes its first match, if any, and the result says
        whether anything was removed. */
    method RemoveMultiplePlayers(nameList: Option<seq<JString>>) returns (r: Result<bool>)
      modifies playerNames
      ensures r.Err? <==> nameList.None?
      ensures r.Err? ==> r.error == IllegalArgument
      ensures nameList.None? ==> playerNames.elements == old(playerNames.elements)
      ensures nameList.Some? ==> playerNames.elements == RemoveEach(old(playerNames.elements), nameList.value)
      ensures nameList.Some? ==> r == Ok(Removals(old(playerNames.elements), nameList.value) > 0)
    {
      if nameList.None? {
        return Err(IllegalArgument);
      }
      var names := nameList.value;
      var changed := false;
      for k := 0 to |names|
        invariant playerNames.elements == RemoveEach(old(playerNames.elements), names[..k])
        invariant changed <==> Removals(old(playerNames.elements), names[..k]) > 0
      {
        ghost var before := playerNames.elements;
        assert names[..k + 1][..k] == names[..k] && names[..k + 1][k] == names[k];
        assert RemoveEach(old(playerNames.elements), names[..k + 1]) == RemoveFirst(before, names[k]);
        if playerNames.Contains(names[k]) {
          changed := true;
          var _ := playerNames.Remove(names[k]);
        }
        assert playerNames.elements == RemoveFirst(before, names[k]);
      }
      assert names[..|names|] == names;
      r := Ok(changed);
    }
  }

  /** `new Football(footballType)`: a null type is rejected. */
  method NewFootball(footballType: FootballType?) returns (r: Result<Football>)
    ensures r.Err? <==> footballType == null
    ensures r.Err? ==> r.error == IllegalArgument
    ensures r.Ok? ==> fresh(r.value) && r.value.footballType == footballType && r.value.footballId == 0
    ensures r.Ok? ==> fresh(r.value.playerNames) && r.value.playerNames.elements == []
  {
    if footballType == null {
      return Err(IllegalArgument);
    }
    var f := new Football(footballType);
    r := Ok(f);
  }

  /** `FootballType(scene)` and `FootballType(scene, tournament)`: null
      parameters are rejected; the one-argument form passes the default
      tournament. */
  method NewFootballType(scene: Option<FootballTypeScene>, tournament: Option<Tournament>) returns (r: Result<FootballType>)
    ensures r.Err? <==> AssertValidFootballTypeParameters(scene, tournament).Fail?
    ensures r.Err? ==> r.error == IllegalArgument
    ensures r.Ok? ==> fresh(r.value)
    ensures r.Ok? ==> r.value.footballTypeInScene == scene && r.value.tournamentInScene == tournament
    ensures r.Ok? ==> r.value.superType == null && r.value.subTypes == {}
  {
    match AssertValidFootballTypeParameters(scene, tournament)
    case Fail(e) => return Err(e);
    case Pass =>
      var t := new FootballType(scene.value, tournament.value);
      r := Ok(t);
  }
}
