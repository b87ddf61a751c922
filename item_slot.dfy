/** The `ItemSlot` value record: a numeric slot id decoded into a container and an index in it. */
module ItemSlots {
  import opened Int32
  import opened Wrappers

  datatype ContainerType =
    | ArmorFeet | ArmorLegs | ArmorChest | ArmorHead
    | HorseSaddle | HorseArmor | HorseChest
    | WeaponMainhand | WeaponOffhand
    | Container   // hotbar and inventory
    | Enderchest
    | Horse
    | Villager

  /** The decoded slot; `containerType` is `None` where the Java field is `null`. */
  datatype ItemSlot = ItemSlot(containerType: Option<ContainerType>, index: int32)

  /** How many slots a container type spans: the width of its id range, 1 for a single slot. */
  function SlotCount(t: ContainerType): int32 {
    match t
    case Container => 54
    case Enderchest => 27
    case Villager => 8
    case Horse => 15
    case _ => 1
  }

  /** The constructor `ItemSlot(int id)`. */
  function FromId(id: int32): (slot: ItemSlot)
    ensures 0 <= slot.index
    ensures slot.containerType.Some? ==> slot.index < SlotCount(slot.containerType.value)
    ensures slot.containerType.None? ==> slot.index == 0
  {
    if 0 <= id <= 53 then ItemSlot(Some(Container), id)
    else if 200 <= id <= 226 then ItemSlot(Some(Enderchest), id - 200)
    else if 300 <= id <= 307 then ItemSlot(Some(Villager), id - 300)
    else if 500 <= id <= 514 then ItemSlot(Some(Horse), id - 500)
    else
      match id
      case 98 => ItemSlot(Some(WeaponMainhand), 0)
      case 99 => ItemSlot(Some(WeaponOffhand), 0)
      case 100 => ItemSlot(Some(ArmorFeet), 0)
      case 101 => ItemSlot(Some(ArmorLegs), 0)
      case 102 => ItemSlot(Some(ArmorChest), 0)
      case 103 => ItemSlot(Some(ArmorHead), 0)
      case 400 => ItemSlot(Some(HorseSaddle), 0)
      case 401 => ItemSlot(Some(HorseArmor), 0)
      case 499 => ItemSlot(Some(HorseChest), 0)
      case _ => ItemSlot(None, 0)
  }

  /** The slot id of the `index`-th slot of a container type: the inverse of `FromId`. */
  function ToId(t: ContainerType, index: int32): (id: int32)
    requires 0 <= index < SlotCount(t)
  {
    match t
    case Container => index
    case Enderchest => 200 + index
    case Villager => 300 + index
    case Horse => 500 + index
    case WeaponMainhand => 98
    case WeaponOffhand => 99
    case ArmorFeet => 100
    case ArmorLegs => 101
    case ArmorChest => 102
    case ArmorHead => 103
    case HorseSaddle => 400
    case HorseArmor => 401
    case HorseChest => 499
  }

  /** Every slot of every container type decodes from its id to itself. */
  lemma FromIdToId(t: ContainerType, index: int32)
    requires 0 <= index < SlotCount(t)
    ensures FromId(ToId(t, index)) == ItemSlot(Some(t), index)
  {
  }

  /** Every id that decodes to a container is the id of the slot it decodes to. */
  lemma ToIdFromId(id: int32)
    requires FromId(id).containerType.Some?
    ensures ToId(FromId(id).containerType.value, FromId(id).index) == id
  {
  }

  /** An id decodes to no container exactly when no slot of any container has that id. */
  lemma AbsentIffNoSlotHasId(id: int32)
    ensures FromId(id).containerType.None? <==>
            forall t: ContainerType, i: int32 :: 0 <= i < SlotCount(t) ==> ToId(t, i) != id
  {
    var slot := FromId(id);
    if slot.containerType.Some? {
      ToIdFromId(id);
    } else {
      forall t: ContainerType, i: int32 | 0 <= i < SlotCount(t)
        ensures ToId(t, i) != id
      {
        FromIdToId(t, i);
      }
    }
  }
}
