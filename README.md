# Estate developer object model in Dafny

This project models the object model of `ObjectOrientedPython.py`:

- An `EstateDeveloper` keeps a private list of the buildings it has built.
- A `Building` registers itself with its developer when it is constructed.
- A `House` is a one-floor `"Personal"` building. It adds furniture, a paint colour (a property with getter, setter and deleter), an occupancy flag and a shape fixed by its dimensions.
- A `SkyScraper` is a `"Commercial"` building with a height.

There are three modules:

- `Seqs` (`seqs.dfy`): the sequence operation behind both "remove if present" list updates. `RemoveFirst` deletes the first element equal to the argument, as Python's `list.remove` does. Lemmas say what it removes, what it keeps, and in which order.
- `Text` (`text.dfy`): Python's `str.capitalize` over ASCII letters. The first character is upper-cased and the rest lower-cased. Lemmas prove that the result is always capitalized and that capitalizing is idempotent and ignores case.
- `Estate` (`estate.dfy`): the classes `Developer`, `Building`, `House` and `SkyScraper`.
  - The lists the source mutates in place are `seq` fields that the methods reassign. Each method's `modifies` clause names only the field it changes.
  - Attributes that no operation of the source reassigns are `const`.
  - A house's shape is a `const` computed from the construction dimensions, so no later operation can change it.
  - `House` and `SkyScraper` inherit from `Building` in the source. Here each holds its `Building` part in the field `building`, and the developer's list holds that object.
  - `HouseScenario` and `RegistrationScenario` are client methods that run the model through a worked example.

The address lines are kept exactly as the source builds them. No space separates the address from `"built by "`, so a house at `"2 Oak Ave"` built by `"Acme"` gives `"House at 2 Oak Avebuilt by Acme"`.

## Model

| member | source | states |
|---|---|---|
| Seqs.IndexOf | ObjectOrientedPython.py:41-42 | the position `list.remove` deletes: an occurrence of the element, with no earlier occurrence |
| Seqs.RemoveFirst | ObjectOrientedPython.py:41-42 | removing an absent element returns the list unchanged; removing a present one shortens it by exactly one |
| Seqs.RemoveFirstAt | ObjectOrientedPython.py:41-42 | when present, the result is the list with exactly its first occurrence cut out: the prefix before it followed by the suffix after it |
| Seqs.RemoveFirstMultiset | ObjectOrientedPython.py:41-42 | removal takes away one copy of the element when there is one, and nothing else (multiset difference) |
| Seqs.RemoveFirstKeepsOrder | ObjectOrientedPython.py:41-42 | each remaining element keeps its relative order: position i of the result holds the old element i before the removed index and old element i+1 after it |
| Seqs.RemoveFirstAfterAppend | ObjectOrientedPython.py:24-42 | appending an element that was not listed and then removing it gives back the original list |
| Seqs.RemoveFirstIdempotent | ObjectOrientedPython.py:41-42 | in a list without duplicates, removal leaves no copy of the element, so a second removal changes nothing |
| Seqs.OnceWithoutDuplicates | ObjectOrientedPython.py:41-42 | an element of a list without duplicates occurs in it exactly once |
| Seqs.AppendKeepsNoDuplicates | ObjectOrientedPython.py:24-31 | appending an element not yet listed keeps a list free of duplicates |
| Seqs.RemoveFirstKeepsNoDuplicates | ObjectOrientedPython.py:41-42 | removal keeps a list free of duplicates |
| Text.ToUpper | ObjectOrientedPython.py:158 | the result is never a lower-case letter; a lower-case letter maps to its upper-case partner; everything else is unchanged |
| Text.ToLower | ObjectOrientedPython.py:158 | the result is never an upper-case letter; an upper-case letter maps to its lower-case partner; everything else is unchanged |
| Text.LowerAll | ObjectOrientedPython.py:158 | same length, and every character lower-cased position by position |
| Text.Capitalize | ObjectOrientedPython.py:158 | same length; the first character upper-cased; every later character lower-cased |
| Text.CaseRoundTrip | ObjectOrientedPython.py:158 | lower-casing then upper-casing a capital letter gives it back, and upper-casing then lower-casing a small letter gives it back |
| Text.CapitalizeIsCapitalized | ObjectOrientedPython.py:158 | the result of capitalize never starts with a lower-case letter and never has an upper-case letter after the first character |
| Text.CapitalizeFixedPoint | ObjectOrientedPython.py:158 | capitalize leaves a string unchanged if and only if it is already capitalized |
| Text.CapitalizeIdempotent | ObjectOrientedPython.py:152-158 | capitalizing twice equals capitalizing once, so setting the same paint colour twice gives the same stored colour |
| Text.SameLetterSameUpper | ObjectOrientedPython.py:158 | two characters with the same lower case have the same upper case |
| Text.CapitalizeIgnoresCase | ObjectOrientedPython.py:158 | strings that differ only in letter case capitalize to the same string ("red" and "RED" both become "Red") |
| Estate.ShapeOf | ObjectOrientedPython.py:108 | the shape is "Long" if and only if length > width, and "Rectangular" if and only if length <= width |
| Estate.FormatAddress | ObjectOrientedPython.py:196-200 | the line is the kind prefix, then the address, then "built by " and the developer's name, with nothing in between |
| Estate.FormatAddressInjective | ObjectOrientedPython.py:196-200 | with the prefix and developer fixed, two equal address lines come from equal addresses |
| Estate.HouseAndSkyScraperLinesDiffer | ObjectOrientedPython.py:196-234 | no house address line equals any skyscraper address line |
| Estate.Developer.constructor | ObjectOrientedPython.py:13-22 | stores name and address and starts with an empty property list |
| Estate.Developer.AddProperty | ObjectOrientedPython.py:24-31 | the new list is the old list with the building appended at the end, even when it is already listed |
| Estate.Developer.RemoveProperty | ObjectOrientedPython.py:33-42 | the new list is the old one with the first listing removed; it is unchanged when the building is absent and one shorter when present; with no duplicates beforehand, none remain and the building is gone |
| Estate.Building.constructor | ObjectOrientedPython.py:57-71 | stores address, floors, type and developer; the developer's list becomes its old contents followed by the new building, which is listed exactly once; a duplicate-free list stays duplicate-free |
| Estate.Building.GetAddress | ObjectOrientedPython.py:73-78 | the base address is the stored address |
| Estate.House.constructor | ObjectOrientedPython.py:93-110 | a fresh one-floor "Personal" building registered at the end of the developer's list; dimensions stored; the shape is "Long" iff length > width; the paint colour is stored raw, not capitalized; no furniture and not occupied |
| Estate.House.AddFurniture | ObjectOrientedPython.py:112-119 | the furniture list gains the piece at the end, duplicates included; nothing else changes |
| Estate.House.RemoveFurniture | ObjectOrientedPython.py:121-131 | the first copy of the piece is removed; the list is unchanged when the piece is absent and one shorter when it is present |
| Estate.House.GetFurnitureList | ObjectOrientedPython.py:133-141 | returns a value equal to the current furniture list and changes nothing |
| Estate.House.GetShape | ObjectOrientedPython.py:143-150 | the shape is "Long" exactly when the construction length exceeds the width, and otherwise "Rectangular" |
| Estate.House.SetPaintColor | ObjectOrientedPython.py:152-166 | afterwards the getter returns the capitalized argument, which is a capitalized string |
| Estate.House.RemovePaintColor | ObjectOrientedPython.py:168-174 | afterwards the getter returns "Bare Bricks / To be painted", whatever the colour was |
| Estate.House.SetOccupied | ObjectOrientedPython.py:187-194 | the occupancy flag becomes the given status; nothing else changes |
| Estate.House.GetAddress | ObjectOrientedPython.py:196-200 | the address line with prefix "House at ", the base address and the developer's name |
| Estate.SkyScraper.constructor | ObjectOrientedPython.py:216-226 | a fresh "Commercial" building with the given address and floors, registered at the end of the developer's list; height stored |
| Estate.SkyScraper.GetAddress | ObjectOrientedPython.py:228-234 | the address line with prefix "Skyscraper at ", the base address and the developer's name |
| Estate.RegisterThenRemove | ObjectOrientedPython.py:33-71 | building a building for a developer and then removing it leaves the developer's list as it was |

## Left out

- `House.__str__` (ObjectOrientedPython.py:176-185) is not modelled. Its text depends on Python's float-to-string formatting of the dimensions.
- Width, length and height are `real`, not Python floats; only the comparison `length > width` uses them. Floor counts are unbounded `int`. As in the source, no size or floor count is validated.
- Text.Capitalize: covers only ASCII letters. Python's full Unicode case mapping (title case for the first character, special casings) is not modelled.
- Inheritance is modelled by composition: the developer lists a house's or skyscraper's `building` part, and `RemoveProperty` takes that part. Python's `in` and `list.remove` on buildings compare by identity here, which is what the default `__eq__` of these classes does.
- Attributes that only outside code could reassign (name, address, floors, type, developer, width, length, height) are `const`. Reassigning them from outside the classes is not modelled.
- The paint-colour getter (`House.PaintColor`, ObjectOrientedPython.py:160-166) reads the field and carries no contract of its own. The setter and deleter state their effect through it. The binding of the three into one Python `property` (ObjectOrientedPython.py:202) is just their grouping in the class.
- The string expression in the "absent" branch of `remove_furniture` (ObjectOrientedPython.py:131) has no effect and is not modelled.
- Python's name mangling of the private lists (`__property_list`, `__furniture_list`) is not modelled. The lists are plain fields that only the class's methods assign.
