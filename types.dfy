/** Values shared by every part of the tool-mode library model: identifiers,
    the optional and failure wrappers that stand for C# nulls and exceptions,
    the host's handling enums, application sides and the sync packet. */
module Types {

  /** An asset location such as "game:scythe-trim". Domains are not parsed:
      two codes are the same exactly when their strings are equal. */
  type Code = string

  datatype Option<+T> = None | Some(value: T)

  /** The exceptions the modelled code throws (or lets the runtime throw). */
  datatype Fault =
    | DuplicateRegistration(code: Code)   // Dictionary.Add on a present key
    | UnknownModeCode(code: Code)         // "Don't know how to instantiate tool mode of class ..."
    | UnknownGroup(group: Code)           // "Don't know how to instantiate tool mode group ..."
    | NotImplemented                      // block-class branch of the ToolModeAPI switches
    | NullReference                       // a member access on a null reference
    | ArgumentNull                        // a LINQ operator applied to null
    | IndexOutOfRange                     // an array index outside the array

  datatype Result<+T> = Ok(value: T) | Err(fault: Fault)

  datatype Outcome = Pass | Fail(fault: Fault)

  /** EnumHandling: the three-way answer of every mode event handler. */
  datatype Handling = PassThrough | PreventDefault | PreventSubsequent

  /** EnumHandHandling of the host. */
  datatype HandHandling = NotHandled | Handled | PreventDefaultAnimation | PreventDefaultAction | HandPreventDefault

  /** EnumAppSide: the client observes and selects, the server is authoritative. */
  datatype Side = Client | Server

  /** EnumItemClass of a collectible. */
  datatype ItemClass = Item | Block

  /** What the tool-mode API can see of a collectible: its code, its class and
      the group the registry reports for it (GetToolModeGroup). */
  datatype Collectible = Collectible(code: Code, itemClass: ItemClass, group: Option<Code>)

  /** ToolModeSyncPacket: which tree, which key, and the new value (None clears). */
  datatype SyncPacket = SyncPacket(tree: string, key: Code, value: Option<Code>)

  const GroupTreeKey: string := "toolmodelib:group"
  const ItemTreeKey: string := "toolmodelib:item"
  const BlockTreeKey: string := "toolmodelib:block"
}
