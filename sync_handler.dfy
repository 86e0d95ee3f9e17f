/** The server end of the sync channel (System/ToolModeSystem.cs): each
    received packet is applied with SetTreeToolMode on the sending player. */
module ServerSync {
  import opened Types
  import opened ToolModes
  import opened Registry
  import opened ToolModeApi

  /** The message handler: the write is applied on the server, where
      SetTreeToolMode sends nothing further. */
  method HandleSyncPacket(registry: ToolModeRegistry, byPlayer: Player, packet: SyncPacket)
    requires byPlayer.side == Server
    modifies byPlayer`trees, registry`outbox
    ensures byPlayer.trees == ApplyPacket(old(byPlayer.trees), packet)
    ensures registry.outbox == old(registry.outbox)
  {
    SetTreeToolMode(byPlayer, registry, packet.tree, packet.key, packet.value);
  }

  /** The channel delivers the client's packets to the handler in send order. */
  method DeliverAll(registry: ToolModeRegistry, byPlayer: Player, packets: seq<SyncPacket>)
    requires byPlayer.side == Server
    modifies byPlayer`trees, registry`outbox
    ensures byPlayer.trees == ApplyAll(old(byPlayer.trees), packets)
    ensures registry.outbox == old(registry.outbox)
  {
    var i := 0;
    while i < |packets|
      invariant 0 <= i <= |packets|
      invariant byPlayer.trees == ApplyAll(old(byPlayer.trees), packets[..i])
      invariant registry.outbox == old(registry.outbox)
    {
      ApplyAllAppend(old(byPlayer.trees), packets[..i], [packets[i]]);
      ApplyOne(byPlayer.trees, packets[i]);
      assert packets[..i + 1] == packets[..i] + [packets[i]];
      HandleSyncPacket(registry, byPlayer, packets[i]);
      i := i + 1;
    }
    assert packets[..i] == packets;
  }

  /** A selection made on a client whose store the server mirrors: once the
      packets it sent are delivered, the server store equals the client's. */
  method SelectOnClientAndSync(client: Player, clientRegistry: ToolModeRegistry,
                               server: Player, serverRegistry: ToolModeRegistry,
                               item: Collectible, mode: ToolMode)
    requires mode.code.Some?
    requires client.side == Client && server.side == Server
    requires client != server && clientRegistry != serverRegistry
    requires client.trees == server.trees
    modifies client`trees, clientRegistry`outbox, server`trees, serverRegistry`outbox
    ensures server.trees == client.trees
    ensures GetItemToolMode(server.trees, item) == mode.code
  {
    var sentBefore := |clientRegistry.outbox|;
    SetItemToolMode(client, clientRegistry, item, Some(mode));
    var sent := clientRegistry.outbox[sentBefore..];
    assert sent == ItemWrites(item, IdOf(Some(mode)));
    DeliverAll(serverRegistry, server, sent);
    ItemSelectThenGet(old(client.trees), item, IdOf(Some(mode)).value);
  }
}
