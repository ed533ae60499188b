/**
 * An estate developer and the buildings it builds. Building a house or a
 * skyscraper registers it with its developer; the developer can later drop a
 * building from its list. A house also carries furniture, a paint colour, an
 * occupancy flag and a shape fixed by its dimensions.
 *
 * House and SkyScraper extend Building in the source; here each of them holds
 * its Building part in `building`, and that object is what the developer lists.
 */
module Estate {
  import opened Seqs
  import opened Text

  const PERSONAL: string := "Personal"
  const COMMERCIAL: string := "Commercial"
  const LONG: string := "Long"
  const RECTANGULAR: string := "Rectangular"
  /** Paint colour of a house whose paint has been removed. */
  const UNPAINTED: string := "Bare Bricks / To be painted"
  const HOUSE_AT: string := "House at "
  const SKYSCRAPER_AT: string := "Skyscraper at "
  const BUILT_BY: string := "built by "

  /** Shape of a house from the dimensions it was built with. */
  function ShapeOf(width: real, length: real): (shape: string)
    ensures shape == LONG <==> length > width
    ensures shape == RECTANGULAR <==> length <= width
  {
    if length > width then LONG else RECTANGULAR
  }

  /**
   * Address line of a building: a prefix naming its kind, the address and the
   * developer. No space is put between the address and "built by".
   */
  function FormatAddress(kind: string, address: string, developerName: string): (line: string)
    ensures |line| == |kind| + |address| + |BUILT_BY| + |developerName|
    ensures line[..|kind|] == kind
    ensures line[|kind|..|kind| + |address|] == address
    ensures line[|kind| + |address|..] == BUILT_BY + developerName
  {
    kind + address + BUILT_BY + developerName
  }

  /** With the kind and the developer fixed, the address line determines the address. */
  lemma FormatAddressInjective(kind: string, a: string, b: string, developerName: string)
    requires FormatAddress(kind, a, developerName) == FormatAddress(kind, b, developerName)
    ensures a == b
  {
    var line := FormatAddress(kind, a, developerName);
    assert |a| == |b|;
    assert a == line[|kind|..|kind| + |a|];
  }

  /** No house address line is ever the address line of a skyscraper. */
  lemma HouseAndSkyScraperLinesDiffer(a: string, n: string, b: string, m: string)
    ensures FormatAddress(HOUSE_AT, a, n) != FormatAddress(SKYSCRAPER_AT, b, m)
  {
    assert FormatAddress(HOUSE_AT, a, n)[0] == 'H';
    assert FormatAddress(SKYSCRAPER_AT, b, m)[0] == 'S';
  }

  /** An estate developer and the buildings it has registered, in registration order. */
  class Developer {
    const name: string
    const address: string
    var properties: seq<Building>

    constructor (name: string, address: string)
      ensures this.name == name && this.address == address
      ensures properties == []
    {
      this.name := name;
      this.address := address;
      properties := [];
    }

    /** Registers a building; a building already listed is listed again. */
    method AddProperty(b: Building)
      modifies this`properties
      ensures properties == old(properties) + [b]
    {
      properties := properties + [b];
    }

    /** Drops the first listing of `b`; does nothing when `b` is not listed. */
    method RemoveProperty(b: Building)
      modifies this`properties
      ensures properties == RemoveFirst(old(properties), b)
      ensures b !in old(properties) ==> properties == old(properties)
      ensures b in old(properties) ==> |properties| == |old(properties)| - 1
      ensures NoDuplicates(old(properties)) ==> NoDuplicates(properties) && b !in properties
    {
      if NoDuplicates(properties) {
        RemoveFirstKeepsNoDuplicates(properties, b);
        RemoveFirstIdempotent(properties, b);
      }
      if b in properties {
        properties := RemoveFirst(properties, b);
      }
    }
  }

  /** What every building has: an address, a floor count, a type and the developer that built it. */
  class Building {
    const address: string
    const numberOfFloors: int
    const propertyType: string
    const developer: Developer

    /** Builds the building and registers it with `developer`. */
    constructor (address: string, numberOfFloors: int, propertyType: string, developer: Developer)
      modifies developer`properties
      ensures this.address == address && this.numberOfFloors == numberOfFloors
      ensures this.propertyType == propertyType && this.developer == developer
      ensures developer.properties == old(developer.properties) + [this]
      ensures multiset(developer.properties)[this] == 1
      ensures NoDuplicates(old(developer.properties)) ==> NoDuplicates(developer.properties)
    {
      this.address := address;
      this.numberOfFloors := numberOfFloors;
      this.propertyType := propertyType;
      this.developer := developer;
      new;
      if NoDuplicates(developer.properties) {
        AppendKeepsNoDuplicates(developer.properties, this);
      }
      developer.AddProperty(this);
    }

    function GetAddress(): (r: string)
      ensures r == address
    {
      address
    }
  }

  class House {
    const building: Building
    const width: real
    const length: real
    /** Fixed once from the dimensions the house was built with. */
    const shape: string := ShapeOf(width, length)
    var paintColor: string
    var furniture: seq<string>
    var occupied: bool

    /** Builds a one-floor personal building registered with `developer`; the colour is stored as given. */
    constructor (address: string, width: real, length: real, paintColor: string, developer: Developer)
      modifies developer`properties
      ensures fresh(building)
      ensures building.address == address && building.numberOfFloors == 1
      ensures building.propertyType == PERSONAL && building.developer == developer
      ensures developer.properties == old(developer.properties) + [building]
      ensures this.width == width && this.length == length
      ensures GetShape() == LONG <==> length > width
      ensures PaintColor() == paintColor
      ensures furniture == [] && !occupied
    {
      building := new Building(address, 1, PERSONAL, developer);
      this.width := width;
      this.length := length;
      this.paintColor := paintColor;
      furniture := [];
      occupied := false;
    }

    /** Adds a piece of furniture, even one the house already has. */
    method AddFurniture(piece: string)
      modifies this`furniture
      ensures furniture == old(furniture) + [piece]
    {
      furniture := furniture + [piece];
    }

    /** Removes the first copy of `piece`; does nothing, and reports nothing, when there is none. */
    method RemoveFurniture(piece: string)
      modifies this`furniture
      ensures furniture == RemoveFirst(old(furniture), piece)
      ensures piece !in old(furniture) ==> furniture == old(furniture)
      ensures piece in old(furniture) ==> |furniture| == |old(furniture)| - 1
    {
      if piece in furniture {
        furniture := RemoveFirst(furniture, piece);
      }
    }

    /** A copy of the furniture list; being a value, changing it cannot change the house. */
    method GetFurnitureList() returns (pieces: seq<string>)
      ensures pieces == furniture
    {
      pieces := furniture;
    }

    function GetShape(): (r: string)
      ensures r == LONG <==> length > width
      ensures r == LONG || r == RECTANGULAR
    {
      shape
    }

    function PaintColor(): string
      reads this`paintColor
    {
      paintColor
    }

    /** Paints the house; the colour is stored capitalized. */
    method SetPaintColor(color: string)
      modifies this`paintColor
      ensures PaintColor() == Capitalize(color)
      ensures IsCapitalized(PaintColor())
    {
      CapitalizeIsCapitalized(color);
      paintColor := Capitalize(color);
    }

    /** Removes the paint: the colour becomes the unpainted marker, whatever it was. */
    method RemovePaintColor()
      modifies this`paintColor
      ensures PaintColor() == UNPAINTED
    {
      paintColor := UNPAINTED;
    }

    method SetOccupied(status: bool)
      modifies this`occupied
      ensures occupied == status
    {
      occupied := status;
    }

    function GetAddress(): (r: string)
      ensures r == FormatAddress(HOUSE_AT, building.GetAddress(), building.developer.name)
    {
      HOUSE_AT + building.GetAddress() + BUILT_BY + building.developer.name
    }
  }

  class SkyScraper {
    const building: Building
    const height: real

    /** Builds a commercial building registered with `developer`. */
    constructor (height: real, address: string, numberOfFloors: int, developer: Developer)
      modifies developer`properties
      ensures fresh(building)
      ensures building.address == address && building.numberOfFloors == numberOfFloors
      ensures building.propertyType == COMMERCIAL && building.developer == developer
      ensures developer.properties == old(developer.properties) + [building]
      ensures this.height == height
    {
      building := new Building(address, numberOfFloors, COMMERCIAL, developer);
      this.height := height;
    }

    function GetAddress(): (r: string)
      ensures r == FormatAddress(SKYSCRAPER_AT, building.GetAddress(), building.developer.name)
    {
      SKYSCRAPER_AT + building.GetAddress() + BUILT_BY + building.developer.name
    }
  }

  /**
   * A developer that registers a fresh building and then drops it is back to
   * the list it had.
   */
  method RegisterThenRemove(d: Developer, address: string, floors: int, propertyType: string)
    modifies d`properties
    ensures d.properties == old(d.properties)
  {
    var b := new Building(address, floors, propertyType, d);
    RemoveFirstAfterAppend(old(d.properties), b);
    d.RemoveProperty(b);
  }

  /** A house going through paint, shape and furniture operations. */
  method HouseScenario()
  {
    var acme := new Developer("Acme", "1 Main St");
    var house := new House("2 Oak Ave", 10.0, 20.0, "blue", acme);
    assert house.GetShape() == LONG;
    assert house.PaintColor() == "blue";
    house.SetPaintColor("green");
    assert house.PaintColor() == "Green";
    house.RemovePaintColor();
    assert house.PaintColor() == UNPAINTED;

    house.AddFurniture("chair");
    house.AddFurniture("chair");
    house.RemoveFurniture("chair");
    house.RemoveFurniture("table");
    var pieces := house.GetFurnitureList();
    assert pieces == ["chair"];
  }

  /** A developer registering a house and a skyscraper and dropping the house twice. */
  method RegistrationScenario()
  {
    var acme := new Developer("Acme", "1 Main St");
    var house := new House("2 Oak Ave", 10.0, 20.0, "blue", acme);
    var tower := new SkyScraper(300.0, "3 Pine Rd", 50, acme);
    assert acme.properties == [house.building, tower.building];
    assert tower.GetAddress() == "Skyscraper at 3 Pine Rdbuilt by Acme";

    acme.RemoveProperty(house.building);
    assert acme.properties == [tower.building];
    acme.RemoveProperty(house.building);
    assert acme.properties == [tower.building];
  }
}
