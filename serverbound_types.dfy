/** The serverbound play packet types of 1.19.1, in declaration order. The
    position of a constant in the declaration is its ordinal, the packet id
    the client sends it under. */
module ServerboundPacketTypes {
  import opened JavaTypes

  datatype ServerboundPacketType_1_19_1 =
    TeleportConfirm | QueryBlockNbt | SetDifficulty | ChatAck | ChatCommand | ChatMessage |
    ChatPreview | ClientStatus | ClientSettings | TabComplete | ClickWindowButton |
    ClickWindow | CloseWindow | PluginMessage | EditBook | QueryEntityNbt | InteractEntity |
    GenerateStructure | KeepAlive | LockDifficulty | PlayerPosition |
    PlayerPositionAndRotation | PlayerRotation | PlayerFlying | VehicleMove | SteerBoat |
    PickItem | CraftRecipeRequest | PlayerAbilities | PlayerDigging | EntityAction |
    SteerVehicle | Pong | SetRecipeBookState | SetDisplayedRecipe | NameItem |
    ResourcePackStatus | AdvancementTab | SelectTrade | SetBeaconEffect | HeldItemChange |
    UpdateCommandBlock | UpdateCommandBlockMinecart | CreativeInventoryAction |
    UpdateJigsawBlock | UpdateStructureBlock | UpdateSign | Animation | Spectate |
    PlayerBlockPlacement | UseItem

  /** The number of constants. */
  const Count: nat := 51

  /** values()[i]: the constant declared at position `i`. Any other index
      throws, which is None here. */
  function ValueAt(i: int): (r: Option<ServerboundPacketType_1_19_1>)
    ensures r.Some? <==> 0 <= i < Count
  {
    match i
    case 0 => Some(TeleportConfirm)
    case 1 => Some(QueryBlockNbt)
    case 2 => Some(SetDifficulty)
    case 3 => Some(ChatAck)
    case 4 => Some(ChatCommand)
    case 5 => Some(ChatMessage)
    case 6 => Some(ChatPreview)
    case 7 => Some(ClientStatus)
    case 8 => Some(ClientSettings)
    case 9 => Some(TabComplete)
    case 10 => Some(ClickWindowButton)
    case 11 => Some(ClickWindow)
    case 12 => Some(CloseWindow)
    case 13 => Some(PluginMessage)
    case 14 => Some(EditBook)
    case 15 => Some(QueryEntityNbt)
    case 16 => Some(InteractEntity)
    case 17 => Some(GenerateStructure)
    case 18 => Some(KeepAlive)
    case 19 => Some(LockDifficulty)
    case 20 => Some(PlayerPosition)
    case 21 => Some(PlayerPositionAndRotation)
    case 22 => Some(PlayerRotation)
    case 23 => Some(PlayerFlying)
    case 24 => Some(VehicleMove)
    case 25 => Some(SteerBoat)
    case 26 => Some(PickItem)
    case 27 => Some(CraftRecipeRequest)
    case 28 => Some(PlayerAbilities)
    case 29 => Some(PlayerDigging)
    case 30 => Some(EntityAction)
    case 31 => Some(SteerVehicle)
    case 32 => Some(Pong)
    case 33 => Some(SetRecipeBookState)
    case 34 => Some(SetDisplayedRecipe)
    case 35 => Some(NameItem)
    case 36 => Some(ResourcePackStatus)
    case 37 => Some(AdvancementTab)
    case 38 => Some(SelectTrade)
    case 39 => Some(SetBeaconEffect)
    case 40 => Some(HeldItemChange)
    case 41 => Some(UpdateCommandBlock)
    case 42 => Some(UpdateCommandBlockMinecart)
    case 43 => Some(CreativeInventoryAction)
    case 44 => Some(UpdateJigsawBlock)
    case 45 => Some(UpdateStructureBlock)
    case 46 => Some(UpdateSign)
    case 47 => Some(Animation)
    case 48 => Some(Spectate)
    case 49 => Some(PlayerBlockPlacement)
    case 50 => Some(UseItem)
    case _ => None
  }

  /** values(): every constant, in declaration order. */
  function Values(): (vs: seq<ServerboundPacketType_1_19_1>)
    ensures |vs| == Count
    ensures forall i :: 0 <= i < Count ==> ValueAt(i) == Some(vs[i])
  {
    seq(Count, i requires 0 <= i < Count => ValueAt(i).value)
  }

  /** ordinal(): the position at which the constant is declared. */
  function Ordinal(t: ServerboundPacketType_1_19_1): (i: nat)
    ensures i < Count && ValueAt(i) == Some(t)
  {
    match t
    case TeleportConfirm => 0
    case QueryBlockNbt => 1
    case SetDifficulty => 2
    case ChatAck => 3
    case ChatCommand => 4
    case ChatMessage => 5
    case ChatPreview => 6
    case ClientStatus => 7
    case ClientSettings => 8
    case TabComplete => 9
    case ClickWindowButton => 10
    case ClickWindow => 11
    case CloseWindow => 12
    case PluginMessage => 13
    case EditBook => 14
    case QueryEntityNbt => 15
    case InteractEntity => 16
    case GenerateStructure => 17
    case KeepAlive => 18
    case LockDifficulty => 19
    case PlayerPosition => 20
    case PlayerPositionAndRotation => 21
    case PlayerRotation => 22
    case PlayerFlying => 23
    case VehicleMove => 24
    case SteerBoat => 25
    case PickItem => 26
    case CraftRecipeRequest => 27
    case PlayerAbilities => 28
    case PlayerDigging => 29
    case EntityAction => 30
    case SteerVehicle => 31
    case Pong => 32
    case SetRecipeBookState => 33
    case SetDisplayedRecipe => 34
    case NameItem => 35
    case ResourcePackStatus => 36
    case AdvancementTab => 37
    case SelectTrade => 38
    case SetBeaconEffect => 39
    case HeldItemChange => 40
    case UpdateCommandBlock => 41
    case UpdateCommandBlockMinecart => 42
    case CreativeInventoryAction => 43
    case UpdateJigsawBlock => 44
    case UpdateStructureBlock => 45
    case UpdateSign => 46
    case Animation => 47
    case Spectate => 48
    case PlayerBlockPlacement => 49
    case UseItem => 50
  }

  /** Every position holds the constant whose ordinal it is, so no constant
      is declared at two positions. */
  lemma OrdinalOfValueAt(i: int)
    requires 0 <= i < Count
    ensures Ordinal(ValueAt(i).value) == i
  {
    if i < 13 {
      OrdinalsFrom0To12(i);
    } else if i < 26 {
      OrdinalsFrom13To25(i);
    } else if i < 34 {
      OrdinalsFrom26To33(i);
    } else if i < 41 {
      OrdinalsFrom34To40(i);
    } else if i < 46 {
      OrdinalsFrom41To45(i);
    } else {
      OrdinalsFrom46To50(i);
    }
  }

  // The same, over a part of the table each: the later constants cost the
  // solver more, so the parts shrink.

  lemma OrdinalsFrom0To12(i: int)
    requires 0 <= i < 13
    ensures Ordinal(ValueAt(i).value) == i
  {
    match i {
      case 0 =>
      case 1 =>
      case 2 =>
      case 3 =>
      case 4 =>
      case 5 =>
      case 6 =>
      case 7 =>
      case 8 =>
      case 9 =>
      case 10 =>
      case 11 =>
      case 12 =>
      case _ => assert false;
    }
  }

  lemma OrdinalsFrom13To25(i: int)
    requires 13 <= i < 26
    ensures Ordinal(ValueAt(i).value) == i
  {
    match i {
      case 13 =>
      case 14 =>
      case 15 =>
      case 16 =>
      case 17 =>
      case 18 =>
      case 19 =>
      case 20 =>
      case 21 =>
      case 22 =>
      case 23 =>
      case 24 =>
      case 25 =>
      case _ => assert false;
    }
  }

  lemma OrdinalsFrom26To33(i: int)
    requires 26 <= i < 34
    ensures Ordinal(ValueAt(i).value) == i
  {
    match i {
      case 26 =>
      case 27 =>
      case 28 =>
      case 29 =>
      case 30 =>
      case 31 =>
      case 32 =>
      case 33 =>
      case _ => assert false;
    }
  }

  lemma OrdinalsFrom34To40(i: int)
    requires 34 <= i < 41
    ensures Ordinal(ValueAt(i).value) == i
  {
    match i {
      case 34 =>
      case 35 =>
      case 36 =>
      case 37 =>
      case 38 =>
      case 39 =>
      case 40 =>
      case _ => assert false;
    }
  }

  lemma OrdinalsFrom41To45(i: int)
    requires 41 <= i < 46
    ensures Ordinal(ValueAt(i).value) == i
  {
    match i {
      case 41 =>
      case 42 =>
      case 43 =>
      case 44 =>
      case 45 =>
      case _ => assert false;
    }
  }

  lemma OrdinalsFrom46To50(i: int)
    requires 46 <= i < 51
    ensures Ordinal(ValueAt(i).value) == i
  {
    match i {
      case 46 =>
      case 47 =>
      case 48 =>
      case 49 =>
      case 50 =>
      case _ => assert false;
    }
  }

  /** Ordinal and position are a bijection between the constants and
      0..50: distinct constants have distinct ordinals, and every position
      is some constant's ordinal. */
  lemma Bijection(t: ServerboundPacketType_1_19_1, u: ServerboundPacketType_1_19_1, i: int)
    ensures Ordinal(t) == Ordinal(u) ==> t == u
    ensures ValueAt(Ordinal(t)) == Some(t)
    ensures 0 <= i < Count ==> Ordinal(Values()[i]) == i
  {
    if 0 <= i < Count {
      OrdinalOfValueAt(i);
    }
  }

  /** No constant appears twice in values(). */
  lemma ValuesDistinct(i: int, j: int)
    requires 0 <= i < j < Count
    ensures Values()[i] != Values()[j]
  {
    OrdinalOfValueAt(i);
    OrdinalOfValueAt(j);
  }

  /** The table has 51 constants, TELEPORT_CONFIRM first and USE_ITEM last. */
  lemma Bounds()
    ensures |Values()| == 51
    ensures Values()[0] == TeleportConfirm && Values()[50] == UseItem
  {
  }

  /** The chat packets sit at 3 to 6; the two play packets this model
      wraps from the client sit at 27 and 28. */
  lemma KnownPositions()
    ensures Ordinal(ChatAck) == 3 && Ordinal(ChatCommand) == 4
    ensures Ordinal(ChatMessage) == 5 && Ordinal(ChatPreview) == 6
    ensures Ordinal(CraftRecipeRequest) == 27 && Ordinal(PlayerAbilities) == 28
  {
  }
}
