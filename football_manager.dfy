/** FootballManager: the get-or-create table of football types, keyed by
    `Objects.hash(scene, tournament)`, and the registry of footballs keyed by
    their id. The static maps are the fields of one manager object. */
module FootballManager {
  import opened Outcomes
  import opened Interning
  import opened CoordinateHash
  import opened FootballModel

  /** `hashCode` of the enum constants, which is their identity hash and
      so not modelled. */
  datatype EnumHashes = EnumHashes(scene: FootballTypeScene -> bv32, tournament: Tournament -> bv32)

  /** `Objects.hashCode`: 0 for null. */
  function SceneHash(h: EnumHashes, scene: Option<FootballTypeScene>): bv32
  {
    match scene
    case None => 0
    case Some(s) => h.scene(s)
  }

  function TournamentHash(h: EnumHashes, tournament: Option<Tournament>): bv32
  {
    match tournament
    case None => 0
    case Some(t) => h.tournament(t)
  }

  /** `Objects.hash(scene, tournament)`, that is `Arrays.hashCode` of the
      two: `31 * (31 * 1 + h(scene)) + h(tournament)` in 32-bit arithmetic. */
  function ObjectsHash(h: EnumHashes, scene: Option<FootballTypeScene>, tournament: Option<Tournament>): int
  {
    ToJavaInt(31 * (31 * 1 + SceneHash(h, scene)) + TournamentHash(h, tournament))
  }

  class FootballManager {
    var footballTypes: map<int, FootballType>
    var footballScenes: map<int, Football>
    const hashes: EnumHashes

    constructor(hashes: EnumHashes)
      ensures footballTypes == map[] && footballScenes == map[] && this.hashes == hashes
    {
      footballTypes := map[];
      footballScenes := map[];
      this.hashes := hashes;
    }

    /** `getFootballType`: a type stored under the key is returned as it
        is, whatever its scene and tournament; on a miss the constructor
        runs, and on success the new type is stored under the key. The
        constructor rejects null parameters before anything is stored. */
    method GetFootballType(scene: Option<FootballTypeScene>, tournament: Option<Tournament>)
      returns (r: Result<FootballType>)
      modifies this
      ensures footballScenes == old(footballScenes)
      ensures var key := ObjectsHash(hashes, scene, tournament);
              && (key in old(footballTypes) ==> r == Ok(old(footballTypes)[key]) && footballTypes == old(footballTypes))
              && (r.Err? <==> key !in old(footballTypes) && (scene.None? || tournament.None?))
              && (r.Err? ==> r.error == IllegalArgument && footballTypes == old(footballTypes))
              && (r.Ok? ==> Interned(old(footballTypes), footballTypes, key, r.value))
      ensures ObjectsHash(hashes, scene, tournament) !in old(footballTypes) && r.Ok? ==>
                fresh(r.value) && r.value.footballTypeInScene == scene && r.value.tournamentInScene == tournament
                && r.value.superType == null && r.value.subTypes == {}
    {
      var key := ObjectsHash(hashes, scene, tournament);
      if key in footballTypes {
        return Ok(footballTypes[key]);
      }
      var created := NewFootballType(scene, tournament);
      if created.Err? {
        return created;
      }
      footballTypes := footballTypes[key := created.value];
      r := created;
    }

    /** `createFootball(scene, tournament)`: the parameters are checked
        before either map is touched; then a Football of the interned type
        is created and registered under its id, replacing the football
        registered under that id before. */
    method CreateFootball(scene: Option<FootballTypeScene>, tournament: Option<Tournament>)
      returns (r: Result<Football>)
      modifies this
      ensures r.Err? <==> AssertValidFootballTypeParameters(scene, tournament).Fail?
      ensures r.Err? ==> r.error == IllegalArgument
      ensures r.Err? ==> footballTypes == old(footballTypes) && footballScenes == old(footballScenes)
      ensures r.Ok? ==>
                var key := ObjectsHash(hashes, scene, tournament);
                && fresh(r.value)
                && Interned(old(footballTypes), footballTypes, key, r.value.footballType)
                && footballScenes == old(footballScenes)[r.value.footballId := r.value]
                && r.value.footballId == 0
                && r.value.playerNames.elements == []
    ensures r.Ok? && ObjectsHash(hashes, scene, tournament) !in old(footballTypes) ==>
              fresh(r.value.footballType)
              && r.value.footballType.footballTypeInScene == scene && r.value.footballType.tournamentInScene == tournament
              && r.value.footballType.superType == null && r.value.footballType.subTypes == {}
    {
      match AssertValidFootballTypeParameters(scene, tournament)
      case Fail(e) => return Err(e);
      case Pass =>
        var footballType := GetFootballType(scene, tournament);
        var football := footballType.value.CreateInstance();
        footballScenes := footballScenes[football.GetFootballId() := football];
        r := Ok(football);
    }

    /** `createFootball(scene)`: the two-argument form with the default
        tournament. */
    method CreateFootballInDefaultTournament(scene: Option<FootballTypeScene>) returns (r: Result<Football>)
      modifies this
      ensures r.Err? <==> scene.None?
      ensures r.Err? ==> r.error == IllegalArgument
      ensures r.Err? ==> footballTypes == old(footballTypes) && footballScenes == old(footballScenes)
      ensures r.Ok? ==>
                var key := ObjectsHash(hashes, scene, Some(DefaultTournament));
                && fresh(r.value)
                && Interned(old(footballTypes), footballTypes, key, r.value.footballType)
                && footballScenes == old(footballScenes)[r.value.footballId := r.value]
                && r.value.footballId == 0
                && r.value.playerNames.elements == []
    ensures r.Ok? && ObjectsHash(hashes, scene, Some(DefaultTournament)) !in old(footballTypes) ==>
              fresh(r.value.footballType)
              && r.value.footballType.footballTypeInScene == scene
              && r.value.footballType.tournamentInScene == Some(DefaultTournament)
              && r.value.footballType.superType == null && r.value.footballType.subTypes == {}
    {
      r := CreateFootball(scene, Some(DefaultTournament));
    }

    /** `getAllTypes`: a new set of exactly the stored types. */
    function GetAllTypes(): (r: set<FootballType>)
      reads this
      ensures forall key :: key in footballTypes ==> footballTypes[key] in r
      ensures r <= footballTypes.Values
    {
      footballTypes.Values
    }
  }

  /** Every football gets id 0, so the registry never holds more than the
      most recently created football. */
  lemma RegistryHoldsOneFootball(scenes: map<int, Football>, f: Football)
    requires scenes.Keys <= {0}
    requires f.footballId == 0
    ensures scenes[f.footballId := f] == map[0 := f]
  {
    assert scenes[0 := f].Keys == scenes.Keys + {0} == {0};
  }

  /** Two `createFootball` calls on an empty registry: the registry then
      holds only the football of the last call that succeeded, under id 0. */
  method CreateFootballTwice(manager: FootballManager,
                             scene1: Option<FootballTypeScene>, tournament1: Option<Tournament>,
                             scene2: Option<FootballTypeScene>, tournament2: Option<Tournament>)
    returns (first: Result<Football>, second: Result<Football>)
    requires manager.footballScenes == map[]
    modifies manager
    ensures second.Ok? ==> manager.footballScenes == map[0 := second.value]
    ensures first.Ok? && second.Err? ==> manager.footballScenes == map[0 := first.value]
    ensures first.Err? && second.Err? ==> manager.footballScenes == map[]
  {
    first := manager.CreateFootball(scene1, tournament1);
    second := manager.CreateFootball(scene2, tournament2);
    if second.Ok? {
      RegistryHoldsOneFootball(old(manager.footballScenes), second.value);
      if first.Ok? {
        RegistryHoldsOneFootball(map[0 := first.value], second.value);
      }
    }
  }

  /** Two requests with the same pair resolve to the same type, and the
      second leaves the table as the first left it. */
  lemma SamePairSameType(h: EnumHashes, m0: map<int, FootballType>, m1: map<int, FootballType>, m2: map<int, FootballType>,
                         scene: Option<FootballTypeScene>, tournament: Option<Tournament>, t1: FootballType, t2: FootballType)
    requires Interned(m0, m1, ObjectsHash(h, scene, tournament), t1)
    requires Interned(m1, m2, ObjectsHash(h, scene, tournament), t2)
    ensures t2 == t1 && m2 == m1
  {
    InternedTwice(m0, m1, m2, ObjectsHash(h, scene, tournament), t1, t2);
  }

  /** A type handed out once stays among `getAllTypes` from then on, since
      entries are never replaced or removed. */
  lemma HandedOutTypesStayListed(m1: map<int, FootballType>, m2: map<int, FootballType>, key: int, t: FootballType)
    requires key in m1 && m1[key] == t
    requires Grows(m1, m2)
    ensures t in m2.Values
  {
    assert m2[key] == t;
  }

  /** `Objects.hash` treats a missing scene like a scene whose constant
      hashes to 0: the key alone cannot tell them apart. */
  lemma NullSceneSharesKey(h: EnumHashes, scene: FootballTypeScene, tournament: Option<Tournament>)
    requires h.scene(scene) == 0
    ensures ObjectsHash(h, None, tournament) == ObjectsHash(h, Some(scene), tournament)
  {
  }
}
