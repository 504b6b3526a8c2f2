/**
 * RClass: the main table of classes resolved at runtime, with an after- and a before-refactor
 * candidate each (an empty candidate never loads), and a process-wide cache of resolved handles.
 */
module RClassTable {
  import opened Wrappers
  import opened Reflect
  import opened ClassNames
  import ClassHandle

  datatype RClass =
      MinecraftServer
    | Packet
    | IChatBaseComponent
    | ChatSerializer
    | ChatMessageType
    | FilteredText
    | MessageSignature
    | PlayerChatMessage
    | NetworkManager
    | QueuedPacket
    | ServerConnection
    | PlayerConnection
    | PlayerList
    | ResourceKey
    | PacketDataSerializer
    | Item
    | ItemStack
    | GenericAttributes
    | AttributeBase
    | ChatComponentText
    | PacketOOpenWindow
    | PacketOSetSlot
    | PacketOPlayerInfo
    | EnumPlayerInfoAction
    | PlayerInfoData
    | PacketOChat
    | PacketOWindowData
    | PacketOTitle
    | PacketOLogin
    | PacketOKeepAlive
    | EnumTitleAction
    | ClientboundTitlesAnimation
    | ClientboundTitleSet
    | ClientboundSubtitleSet
    | ClientboundSystemChatPacket
    | PacketIBEdit
    | PacketISetCreativeSlot
    | PacketIItemName
    | PacketIHandshake
    | PacketIKeepAlive
    | PacketIChat
    | TileEntityFurnace
    | NbtTagList
    | NbtTagCompound
    | NbtTagString
    | NbtTagInt
    | NbtTagLong
    | NbtTagIntArray
    | NbtTagDouble
    | NbtBase
    | EntityHuman
    | EntityPlayer
    | Container
    | CraftItemStack
    | CraftServer
    | CraftMetaItem
    | CraftPlayer
    | EnumGameMode
    | ProfilePublicKey

  function AfterRefactorName(rc: RClass): string {
    match rc
    case MinecraftServer => "net.minecraft.server.MinecraftServer"
    case Packet => "net.minecraft.network.protocol.Packet"
    case IChatBaseComponent => "net.minecraft.network.chat.IChatBaseComponent"
    case ChatSerializer => "net.minecraft.network.chat.IChatBaseComponent$ChatSerializer"
    case ChatMessageType => "net.minecraft.network.chat.ChatMessageType"
    case FilteredText => "net.minecraft.server.network.FilteredText"
    case MessageSignature => "net.minecraft.network.chat.MessageSignature"
    case PlayerChatMessage => "net.minecraft.network.chat.PlayerChatMessage"
    case NetworkManager => "net.minecraft.network.NetworkManager"
    case QueuedPacket => "net.minecraft.network.NetworkManager$QueuedPacket"
    case ServerConnection => "net.minecraft.server.network.ServerConnection"
    case PlayerConnection => "net.minecraft.server.network.PlayerConnection"
    case PlayerList => "net.minecraft.server.players.PlayerList"
    case ResourceKey => "net.minecraft.resources.ResourceKey"
    case PacketDataSerializer => "net.minecraft.network.PacketDataSerializer"
    case Item => "net.minecraft.world.item.Item"
    case ItemStack => "net.minecraft.world.item.ItemStack"
    case GenericAttributes => "net.minecraft.world.entity.ai.attributes.GenericAttributes"
    case AttributeBase => "net.minecraft.world.entity.ai.attributes.AttributeBase"
    case ChatComponentText => "net.minecraft.network.chat.ChatComponentText"
    case PacketOOpenWindow => "net.minecraft.network.protocol.game.PacketPlayOutOpenWindow"
    case PacketOSetSlot => "net.minecraft.network.protocol.game.PacketPlayOutSetSlot"
    case PacketOPlayerInfo => "net.minecraft.network.protocol.game.PacketPlayOutPlayerInfo"
    case EnumPlayerInfoAction => "net.minecraft.network.protocol.game.PacketPlayOutPlayerInfo$EnumPlayerInfoAction"
    case PlayerInfoData => "net.minecraft.network.protocol.game.PacketPlayOutPlayerInfo$PlayerInfoData"
    case PacketOChat => "net.minecraft.network.protocol.game.PacketPlayOutChat"
    case PacketOWindowData => "net.minecraft.network.protocol.game.PacketPlayOutWindowData"
    case PacketOTitle => ""
    case PacketOLogin => "net.minecraft.network.protocol.login.PacketLoginOutSuccess"
    case PacketOKeepAlive => "net.minecraft.network.protocol.game.PacketPlayOutKeepAlive"
    case EnumTitleAction => ""
    case ClientboundTitlesAnimation => "net.minecraft.network.protocol.game.ClientboundSetTitlesAnimationPacket"
    case ClientboundTitleSet => "net.minecraft.network.protocol.game.ClientboundSetTitleTextPacket"
    case ClientboundSubtitleSet => "net.minecraft.network.protocol.game.ClientboundSetSubtitleTextPacket"
    case ClientboundSystemChatPacket => "net.minecraft.network.protocol.game.ClientboundSystemChatPacket"
    case PacketIBEdit => "net.minecraft.network.protocol.game.PacketPlayInBEdit"
    case PacketISetCreativeSlot => "net.minecraft.network.protocol.game.PacketPlayInSetCreativeSlot"
    case PacketIItemName => "net.minecraft.network.protocol.game.PacketPlayInItemName"
    case PacketIHandshake => "net.minecraft.network.protocol.handshake.PacketHandshakingInSetProtocol"
    case PacketIKeepAlive => "net.minecraft.network.protocol.game.PacketPlayInKeepAlive"
    case PacketIChat => "net.minecraft.network.protocol.game.PacketPlayInChat"
    case TileEntityFurnace => "net.minecraft.world.level.block.entity.TileEntityFurnace"
    case NbtTagList => "net.minecraft.nbt.NBTTagList"
    case NbtTagCompound => "net.minecraft.nbt.NBTTagCompound"
    case NbtTagString => "net.minecraft.nbt.NBTTagString"
    case NbtTagInt => "net.minecraft.nbt.NBTTagInt"
    case NbtTagLong => "net.minecraft.nbt.NBTTagLong"
    case NbtTagIntArray => "net.minecraft.nbt.NBTTagIntArray"
    case NbtTagDouble => "net.minecraft.nbt.NBTTagDouble"
    case NbtBase => "net.minecraft.nbt.NBTBase"
    case EntityHuman => "net.minecraft.world.entity.player.EntityHuman"
    case EntityPlayer => "net.minecraft.server.level.EntityPlayer"
    case Container => "net.minecraft.world.inventory.Container"
    case CraftItemStack => "org.bukkit.craftbukkit.{v}.inventory.CraftItemStack"
    case CraftServer => "org.bukkit.craftbukkit.{v}.CraftServer"
    case CraftMetaItem => "org.bukkit.craftbukkit.{v}.inventory.CraftMetaItem"
    case CraftPlayer => "org.bukkit.craftbukkit.{v}.entity.CraftPlayer"
    case EnumGameMode => "net.minecraft.world.level.EnumGamemode"
    case ProfilePublicKey => "net.minecraft.world.entity.player.ProfilePublicKey"
  }

  /** The before-refactor names as the table writes them. */
  function BeforeRefactorNameAsWritten(rc: RClass): string {
    match rc
    case MinecraftServer => "net.minecraft.server.{v}.MinecraftServer"
    case Packet => "net.minecraft.server.{v}.Packet"
    case IChatBaseComponent => "net.minecraft.server.{v}.NetworkManager"
    case ChatSerializer => "net.minecraft.server.{v}.IChatBaseComponent$ChatSerializer"
    case ChatMessageType => "net.minecraft.server.{v}.ChatMessageType"
    case FilteredText => ""
    case MessageSignature => ""
    case PlayerChatMessage => ""
    case NetworkManager => "net.minecraft.server.{v}.NetworkManager"
    case QueuedPacket => "net.minecraft.server.{v}.NetworkManager$QueuedPacket"
    case ServerConnection => "net.minecraft.server.{v}.ServerConnection"
    case PlayerConnection => "net.minecraft.server.{v}.PlayerConnection"
    case PlayerList => "net.minecraft.server.{v}.PlayerList"
    case ResourceKey => ""
    case PacketDataSerializer => "net.minecraft.server.{v}.PacketDataSerializer"
    case Item => "net.minecraft.server.{v}.Item"
    case ItemStack => "net.minecraft.server.{v}.ItemStack"
    case GenericAttributes => "net.minecraft.server.{v}.GenericAttributes"
    case AttributeBase => "net.minecraft.server.{v}.AttributeBase"
    case ChatComponentText => "net.minecraft.server.{v}.ChatComponentText"
    case PacketOOpenWindow => "net.minecraft.server.{v}.PacketPlayOutOpenWindow"
    case PacketOSetSlot => "net.minecraft.server.{v}.PacketPlayOutSetSlot"
    case PacketOPlayerInfo => "net.minecraft.server.{v}.PacketPlayOutPlayerInfo"
    case EnumPlayerInfoAction => "net.minecraft.server.{v}.PacketPlayOutPlayerInfo$EnumPlayerInfoAction"
    case PlayerInfoData => "net.minecraft.server.{v}.PacketPlayOutPlayerInfo$PlayerInfoData"
    case PacketOChat => "net.minecraft.server.{v}.PacketPlayOutChat"
    case PacketOWindowData => "net.minecraft.server.{v}.PacketPlayOutWindowData"
    case PacketOTitle => "net.minecraft.server.{v}.PacketPlayOutTitle"
    case PacketOLogin => "net.minecraft.server.{v}.PacketLoginOutSuccess"
    case PacketOKeepAlive => "net.minecraft.server.{v}.PacketPlayOutKeepAlive"
    case EnumTitleAction => "net.minecraft.server.{v}.PacketPlayOutTitle$EnumTitleAction"
    case ClientboundTitlesAnimation => ""
    case ClientboundTitleSet => ""
    case ClientboundSubtitleSet => ""
    case ClientboundSystemChatPacket => ""
    case PacketIBEdit => "net.minecraft.server.{v}.PacketPlayInBEdit"
    case PacketISetCreativeSlot => "net.minecraft.server.{v}.PacketPlayInSetCreativeSlot"
    case PacketIItemName => "net.minecraft.server.{v}.PacketPlayInItemName"
    case PacketIHandshake => "net.minecraft.server.{v}.PacketHandshakingInSetProtocol"
    case PacketIKeepAlive => "net.minecraft.server.{v}.PacketPlayInKeepAlive"
    case PacketIChat => "net.minecraft.server.{v}.PacketPlayInChat"
    case TileEntityFurnace => "net.minecraft.server.{v}.TileEntityFurnace"
    case NbtTagList => "net.minecraft.server.{v}.NBTTagList"
    case NbtTagCompound => "net.minecraft.server.{v}.NBTTagCompound"
    case NbtTagString => "net.minecraft.server.{v}.NBTTagString"
    case NbtTagInt => "net.minecraft.server.{v}.NBTTagInt"
    case NbtTagLong => "net.minecraft.server.{v}.NBTTagLong"
    case NbtTagIntArray => "net.minecraft.server.{v}.NBTTagIntArray"
    case NbtTagDouble => "net.minecraft.server.{v}.NBTTagDouble"
    case NbtBase => "net.minecraft.server.{v}.NBTBase"
    case EntityHuman => "net.minecraft.server.{v}.EntityHuman"
    case EntityPlayer => "net.minecraft.server.{v}.EntityPlayer"
    case Container => "net.minecraft.server.{v}.Container"
    case CraftItemStack => "org.bukkit.craftbukkit.{v}.inventory.CraftItemStack"
    case CraftServer => "org.bukkit.craftbukkit.{v}.CraftServer"
    case CraftMetaItem => "org.bukkit.craftbukkit.{v}.inventory.CraftMetaItem"
    case CraftPlayer => "org.bukkit.craftbukkit.{v}.entity.CraftPlayer"
    case EnumGameMode => "net.minecraft.server.{v}.EnumGamemode"
    case ProfilePublicKey => ""
  }

  /**
   * The before-refactor names as intended: the chat component's entry names the chat component
   * class, where the table repeats the network manager's name.
   */
  function BeforeRefactorName(rc: RClass): string {
    if rc == IChatBaseComponent then "net.minecraft.server.{v}.IChatBaseComponent" else BeforeRefactorNameAsWritten(rc)
  }

  /** As written, a pre-refactor server resolves the chat component constant to the network manager class. */
  lemma ChatComponentAsWrittenIsNetworkManager(version: string, loader: ClassLoader)
    ensures Candidate(AfterRefactorName(IChatBaseComponent), BeforeRefactorNameAsWritten(IChatBaseComponent), false, version)
      == Candidate(AfterRefactorName(NetworkManager), BeforeRefactorNameAsWritten(NetworkManager), false, version)
    ensures ForName(loader, Candidate(AfterRefactorName(IChatBaseComponent), BeforeRefactorNameAsWritten(IChatBaseComponent), false, version))
      == ForName(loader, Candidate(AfterRefactorName(NetworkManager), BeforeRefactorName(NetworkManager), false, version))
  {
  }

  /**
   * With the intended chat component name, the chat component and the network manager no longer
   * share a pre-refactor name; every other entry keeps its name.
   */
  lemma ChatComponentNameDistinct(rc: RClass)
    requires rc != IChatBaseComponent
    ensures BeforeRefactorName(IChatBaseComponent) != BeforeRefactorName(NetworkManager)
    ensures BeforeRefactorName(rc) == BeforeRefactorNameAsWritten(rc)
  {
  }

  /** The name resolve loads: the chosen candidate of the table as written. */
  function Name(rc: RClass, afterRefactor: bool, version: string): string {
    Candidate(AfterRefactorName(rc), BeforeRefactorNameAsWritten(rc), afterRefactor, version)
  }

  /** The name resolve would load with the intended table. */
  function NameCorrected(rc: RClass, afterRefactor: bool, version: string): string {
    Candidate(AfterRefactorName(rc), BeforeRefactorName(rc), afterRefactor, version)
  }

  /**
   * The intended name differs from the written one only for the chat component on a pre-refactor
   * server, where the written one is the network manager's name.
   */
  lemma NameCorrectedAgrees(rc: RClass, afterRefactor: bool, version: string)
    ensures rc != IChatBaseComponent || afterRefactor ==> NameCorrected(rc, afterRefactor, version) == Name(rc, afterRefactor, version)
    ensures Name(IChatBaseComponent, false, version) == Name(NetworkManager, false, version)
  {
    ChatComponentAsWrittenIsNetworkManager(version, map[]);
  }

  /** The static cache: a resolved constant keeps its handle for the rest of the process. */
  class ResolveCache {
    var cache: map<RClass, ClassHandle.Handle>

    constructor()
      ensures cache == map[]
    {
      cache := map[];
    }

    /**
     * resolve: a cached handle is returned whatever flag and version are passed; otherwise the
     * chosen name is loaded and wrapped with ClassHandle.of, and only a successful load is cached.
     */
    method Resolve(rc: RClass, afterRefactor: bool, version: string, loader: ClassLoader, handles: ClassHandle.Caches)
      returns (r: Result<ClassHandle.Handle>)
      requires handles.Valid()
      modifies this, handles
      ensures handles.Valid()
      ensures rc in old(cache) ==> r == Ok(old(cache)[rc]) && cache == old(cache) && unchanged(handles)
      ensures rc !in old(cache) && ForName(loader, Name(rc, afterRefactor, version)).Throw? ==>
        r == Throw(ClassNotFound) && cache == old(cache) && unchanged(handles)
      ensures rc !in old(cache) && ForName(loader, Name(rc, afterRefactor, version)).Ok? ==>
        r.Ok? && r.value.c == ForName(loader, Name(rc, afterRefactor, version)).value && cache == old(cache)[rc := r.value]
    {
      r := ResolveNamed(rc, Name(rc, afterRefactor, version), loader, handles);
    }

    /** resolve with the intended table: the same caching, loading the intended name. */
    method ResolveCorrected(rc: RClass, afterRefactor: bool, version: string, loader: ClassLoader, handles: ClassHandle.Caches)
      returns (r: Result<ClassHandle.Handle>)
      requires handles.Valid()
      modifies this, handles
      ensures handles.Valid()
      ensures rc in old(cache) ==> r == Ok(old(cache)[rc]) && cache == old(cache) && unchanged(handles)
      ensures rc !in old(cache) && ForName(loader, NameCorrected(rc, afterRefactor, version)).Throw? ==>
        r == Throw(ClassNotFound) && cache == old(cache) && unchanged(handles)
      ensures rc !in old(cache) && ForName(loader, NameCorrected(rc, afterRefactor, version)).Ok? ==>
        r.Ok? && r.value.c == ForName(loader, NameCorrected(rc, afterRefactor, version)).value && cache == old(cache)[rc := r.value]
    {
      r := ResolveNamed(rc, NameCorrected(rc, afterRefactor, version), loader, handles);
    }

    /** The body of resolve once the name is chosen. */
    method ResolveNamed(rc: RClass, name: string, loader: ClassLoader, handles: ClassHandle.Caches)
      returns (r: Result<ClassHandle.Handle>)
      requires handles.Valid()
      modifies this, handles
      ensures handles.Valid()
      ensures rc in old(cache) ==> r == Ok(old(cache)[rc]) && cache == old(cache) && unchanged(handles)
      ensures rc !in old(cache) && ForName(loader, name).Throw? ==>
        r == Throw(ClassNotFound) && cache == old(cache) && unchanged(handles)
      ensures rc !in old(cache) && ForName(loader, name).Ok? ==>
        r.Ok? && r.value.c == ForName(loader, name).value && cache == old(cache)[rc := r.value]
    {
      if rc in cache {
        return Ok(cache[rc]);
      }
      var loaded := ForName(loader, name);
      if loaded.Throw? {
        return Throw(loaded.ex);
      }
      var h := handles.Of(loaded.value);
      cache := cache[rc := h];
      return Ok(h);
    }
  }

  /** An entry with an empty candidate never resolves on that side. */
  lemma EmptyCandidateFails(rc: RClass, afterRefactor: bool, version: string, loader: ClassLoader)
    requires (if afterRefactor then AfterRefactorName(rc) else BeforeRefactorNameAsWritten(rc)) == ""
    ensures ForName(loader, Name(rc, afterRefactor, version)) == Throw(ClassNotFound)
  {
  }
}
