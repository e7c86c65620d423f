/** delete_persona, the one transaction that writes both the persona and the chat tables. */
module Gateway {
  import opened Basics
  import M = Materials
  import opened Runs
  import opened ChatStores
  import opened PersonaStores

  /** Nothing is written unless all checks pass. */
  method DeletePersona(personas: PersonaStore, chats: ChatStore, owner: Subject, p: Uuid, key: Uuid)
    returns (reply: DeleteReply)
    modifies personas, chats
    ensures (World(personas.View(), chats.View()), reply)
      == Delete(World(old(personas.View()), old(chats.View())), owner, p, key)
  {
    hide M.DeleteMaterial, M.MaterialBusy, ChatStores.ChatTables.DeleteChat, ChatStores.ChatTables.ChatBusy;
    if owner !in personas.users {
      return PersonaNotFound;
    }
    if DeleteRecord(owner, p, key) in personas.records {
      return AlreadyDeleted;
    }
    if !M.LivePersona(personas.View(), owner, p) {
      return PersonaNotFound;
    }
    var materialBusy := personas.MaterialIsBusy(p);
    if materialBusy {
      return PersonaBusy;
    }
    var chatBusy := chats.ChatIsBusy(p);
    if chatBusy {
      return PersonaBusy;
    }
    chats.DeleteChatRecords(owner, p);
    personas.DeleteMaterialRecords(owner, p, key);
    return Deleted;
  }
}
