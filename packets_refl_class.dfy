/**
 * bblibpackets/ReflClass: the older table of classes resolved at runtime by name, with an
 * after- and a before-refactor candidate each; `resolve` loads the chosen name and keeps nothing.
 */
module PacketsReflClass {
  import opened Wrappers
  import opened Reflect
  import opened ClassNames

  datatype ReflClass =
      MinecraftServer
    | Packet
    | NetworkManager
    | ServerConnection
    | PlayerConnection
    | PacketDataSerializer
    | Item
    | ItemStack
    | GenericAttributes
    | AttributeBase
    | ChatComponentText
    | ChatMessageType
    | PacketOSetSlot
    | PacketIBEdit
    | PacketISetCreativeSlot
    | PacketIItemName
    | TileEntityFurnace
    | NbtTagList
    | NbtTagCompound
    | NbtTagString
    | NbtTagInt
    | NbtTagLong
    | NbtTagIntArray
    | NbtTagDouble
    | NbtBase
    | EntityHuman
    | Container

  function AfterRefactorName(rc: ReflClass): string {
    match rc
    case MinecraftServer => "net.minecraft.server.MinecraftServer"
    case Packet => "net.minecraft.network.protocol.Packet"
    case NetworkManager => "net.minecraft.network.NetworkManager"
    case ServerConnection => "net.minecraft.server.network.ServerConnection"
    case PlayerConnection => "net.minecraft.server.network.PlayerConnection"
    case PacketDataSerializer => "net.minecraft.network.PacketDataSerializer"
    case Item => "net.minecraft.world.item.Item"
    case ItemStack => "net.minecraft.world.item.ItemStack"
    case GenericAttributes => "net.minecraft.world.entity.ai.attributes.GenericAttributes"
    case AttributeBase => "net.minecraft.world.entity.ai.attributes.AttributeBase"
    case ChatComponentText => "net.minecraft.network.chat.ChatComponentText"
    case ChatMessageType => "net.minecraft.network.chat.ChatMessageType"
    case PacketOSetSlot => "net.minecraft.network.protocol.game.PacketPlayOutSetSlot"
    case PacketIBEdit => "net.minecraft.network.protocol.game.PacketPlayInBEdit"
    case PacketISetCreativeSlot => "net.minecraft.network.protocol.game.PacketPlayInSetCreativeSlot"
    case PacketIItemName => "net.minecraft.network.protocol.game.PacketPlayInItemName"
    case TileEntityFurnace => "net.minecraft.world.level.block.entity.TileEntityFurnace"
    case NbtTagList => "net.minecraft.nbt.NBTTagList"
    case NbtTagCompound => "net.minecraft.nbt.NBTTagCompound"
    case NbtTagString => "net.minecraft.nbt.NBTTagString"
    case NbtTagInt => "net.minecraft.nbt.NBTTagInt"
    case NbtTagLong => "net.minecraft.nbt.NBTTagLong"
    case NbtTagIntArray => "net.minecraft.nbt.NBTTagIntArray"
    case NbtTagDouble => "net.minecraft.nbt.NBTTagDouble"
    case NbtBase => "net.minecraft.nbt.NBTBase"
    case EntityHuman => "net.minecraft.world.entity.player.EntityHuman"
    case Container => "net.minecraft.world.inventory.Container"
  }

  function BeforeRefactorName(rc: ReflClass): string {
    match rc
    case MinecraftServer => "net.minecraft.server.{v}.MinecraftServer"
    case Packet => "net.minecraft.server.{v}.Packet"
    case NetworkManager => "net.minecraft.server.{v}.NetworkManager"
    case ServerConnection => "net.minecraft.server.{v}.ServerConnection"
    case PlayerConnection => "net.minecraft.server.{v}.PlayerConnection"
    case PacketDataSerializer => "net.minecraft.server.{v}.PacketDataSerializer"
    case Item => "net.minecraft.server.{v}.Item"
    case ItemStack => "net.minecraft.server.{v}.ItemStack"
    case GenericAttributes => "net.minecraft.server.{v}.GenericAttributes"
    case AttributeBase => "net.minecraft.server.{v}.AttributeBase"
    case ChatComponentText => "net.minecraft.server.{v}.ChatComponentText"
    case ChatMessageType => "net.minecraft.server.{v}.ChatMessageType"
    case PacketOSetSlot => "net.minecraft.server.{v}.PacketPlayOutSetSlot"
    case PacketIBEdit => "net.minecraft.server.{v}.PacketPlayInBEdit"
    case PacketISetCreativeSlot => "net.minecraft.server.{v}.PacketPlayInSetCreativeSlot"
    case PacketIItemName => "net.minecraft.server.{v}.PacketPlayInItemName"
    case TileEntityFurnace => "net.minecraft.server.{v}.TileEntityFurnace"
    case NbtTagList => "net.minecraft.server.{v}.NBTTagList"
    case NbtTagCompound => "net.minecraft.server.{v}.NBTTagCompound"
    case NbtTagString => "net.minecraft.server.{v}.NBTTagString"
    case NbtTagInt => "net.minecraft.server.{v}.NBTTagInt"
    case NbtTagLong => "net.minecraft.server.{v}.NBTTagLong"
    case NbtTagIntArray => "net.minecraft.server.{v}.NBTTagIntArray"
    case NbtTagDouble => "net.minecraft.server.{v}.NBTTagDouble"
    case NbtBase => "net.minecraft.server.{v}.NBTBase"
    case EntityHuman => "net.minecraft.server.{v}.EntityHuman"
    case Container => "net.minecraft.server.{v}.Container"
  }

  /** resolve: stateless, the chosen candidate with "{v}" substituted, loaded by name. */
  function Resolve(rc: ReflClass, afterRefactor: bool, version: string, loader: ClassLoader): Result<ClassInfo> {
    ForName(loader, Candidate(AfterRefactorName(rc), BeforeRefactorName(rc), afterRefactor, version))
  }

  /** The loaded class is the one the loader holds under the chosen, substituted name. */
  lemma ResolveLoadsCandidate(rc: ReflClass, afterRefactor: bool, version: string, loader: ClassLoader)
    ensures var name := Candidate(AfterRefactorName(rc), BeforeRefactorName(rc), afterRefactor, version);
      var r := Resolve(rc, afterRefactor, version, loader);
      (r.Ok? <==> name != "" && name in loader) && (r.Ok? ==> r.value == loader[name]) && (r.Throw? ==> r.ex == ClassNotFound)
  {
  }

  /** A brace-free after-refactor name resolves the same way for every version. */
  lemma AfterRefactorVersionIndependent(rc: ReflClass, v1: string, v2: string, loader: ClassLoader)
    requires '{' !in AfterRefactorName(rc)
    ensures Resolve(rc, true, v1, loader) == Resolve(rc, true, v2, loader)
  {
    VersionIndependent(AfterRefactorName(rc), v1, v2);
  }
}
