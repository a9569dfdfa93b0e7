/** FootballPhoto, a photo with a list of player names, and
    FootballPhotoFactory, whose single instance is kept in a static slot
    that is set once. */
module FootballPhoto {
  import opened Outcomes
  import opened PlayerNames

  /** A photo id. The Photo superclass, which assigns and stores it, is not
      part of this model. */
  datatype PhotoId = PhotoId(value: string)

  class FootballPhoto {
    const id: PhotoId
    const playerNames: NameList

    /** A photo with the given id and no player names. */
    constructor(id: PhotoId)
      ensures this.id == id && fresh(playerNames) && playerNames.elements == []
    {
      this.id := id;
      playerNames := new NameList();
    }

    /** `addSinglePlayerName`: appended without any check, null included. */
    method AddSinglePlayerName(name: JString)
      modifies playerNames
      ensures playerNames.elements == old(playerNames.elements) + [name]
    {
      playerNames.Add(name);
    }

    /** `addMultiplePlayerNames`: a null list throws NullPointerException
        and changes nothing; otherwise all names are appended in order. */
    method AddMultiplePlayerNames(nameList: Option<seq<JString>>) returns (r: Outcome)
      modifies playerNames
      ensures r.Fail? <==> nameList.None?
      ensures r.Fail? ==> r.error == NullPointer
      ensures nameList.None? ==> playerNames.elements == old(playerNames.elements)
      ensures nameList.Some? ==> playerNames.elements == old(playerNames.elements) + nameList.value
      ensures nameList.Some? ==> |playerNames.elements| == |old(playerNames.elements)| + |nameList.value|
    {
      if nameList.None? {
        return Fail(NullPointer);
      }
      var names := nameList.value;
      for k := 0 to |names|
        invariant playerNames.elements == old(playerNames.elements) + names[..k]
      {
        playerNames.Add(names[k]);
        assert names[..k + 1] == names[..k] + [names[k]];
      }
      assert names[..|names|] == names;
      r := Pass;
    }

    /** `getPlayerNames`: the list itself, not a copy. */
    function GetPlayerNames(): (r: NameList)
      ensures r == playerNames
    {
      playerNames
    }
  }

  /** `new FootballPhoto(id)`: a null id throws IllegalArgumentException. */
  method NewFootballPhoto(id: Option<PhotoId>) returns (r: Result<FootballPhoto>)
    ensures r.Err? <==> id.None?
    ensures r.Err? ==> r.error == IllegalArgument
    ensures id.Some? ==> r.Ok?
    ensures r.Ok? ==> fresh(r.value) && r.value.id == id.value && r.value.playerNames.elements == []
  {
    if id.None? {
      return Err(IllegalArgument);
    }
    var photo := new FootballPhoto(id.value);
    r := Ok(photo);
  }

  class FootballPhotoFactory {
    constructor()
    {
    }

    /** `createPhoto()`: a photo under the id the superclass assigns, which
        is a parameter here. */
    method CreatePhoto(assignedId: PhotoId) returns (photo: FootballPhoto)
      ensures fresh(photo) && photo.id == assignedId && photo.playerNames.elements == []
    {
      photo := new FootballPhoto(assignedId);
    }

    /** `createPhoto(id)`: the IllegalArgumentException of the constructor
        becomes a FootballPhotoCreationException. */
    method CreatePhotoWithId(id: Option<PhotoId>) returns (r: Result<FootballPhoto>)
      ensures r.Err? <==> id.None?
      ensures r.Err? ==> r.error == FootballPhotoCreation
      ensures r.Ok? ==> fresh(r.value) && r.value.id == id.value && r.value.playerNames.elements == []
    {
      var created := NewFootballPhoto(id);
      match created
      case Err(_) => return Err(FootballPhotoCreation);
      case Ok(photo) => return Ok(photo);
    }
  }

  /** The static `instance` field of FootballPhotoFactory: empty until the
      first `setInstance` or `getInstance`, then fixed. */
  class FactorySlot {
    var instance: FootballPhotoFactory?

    constructor()
      ensures instance == null
    {
      instance := null;
    }

    /** `setInstance`: refused with IllegalStateException, and nothing
        changes, when an instance is already there; otherwise the argument
        is stored, even null. */
    method SetInstance(factory: FootballPhotoFactory?) returns (r: Outcome)
      modifies this
      ensures r.Fail? <==> old(instance) != null
      ensures r.Fail? ==> r.error == IllegalState
      ensures old(instance) != null ==> instance == old(instance)
      ensures old(instance) == null ==> instance == factory
    {
      if instance != null {
        return Fail(IllegalState);
      }
      instance := factory;
      r := Pass;
    }

    /** `getInstance`: creates and stores a factory only when the slot is
        empty; always returns the stored factory and never fails. */
    method GetInstance() returns (factory: FootballPhotoFactory)
      modifies this
      ensures factory == instance
      ensures old(instance) != null ==> instance == old(instance)
      ensures old(instance) == null ==> fresh(instance)
    {
      if instance == null {
        var created := new FootballPhotoFactory();
        var _ := SetInstance(created);
      }
      factory := instance;
    }

    /** `initialize`: `getInstance` for its effect, so the slot is set
        afterwards. */
    method Initialize()
      modifies this
      ensures instance != null
      ensures old(instance) != null ==> instance == old(instance)
    {
      var _ := GetInstance();
    }
  }

  /** Two `getInstance` calls hand out the same factory: the first fixes
      the slot, and the second finds it set. */
  method GetInstanceTwice(slot: FactorySlot) returns (first: FootballPhotoFactory, second: FootballPhotoFactory)
    modifies slot
    ensures first == second == slot.instance
  {
    first := slot.GetInstance();
    second := slot.GetInstance();
  }
}
