/**
 * The parts of the Rocket.Chat Apps Engine that the bridge reads: local users, the user
 * directory behind `read.getUserReader()`, and rooms. They are given to the model as values.
 */
module AppsEngine {
  import opened Wrappers

  datatype LocalUser = LocalUser(id: string, username: string)

  /** `getUserReader().getById` and `getUserReader().getByUsername`. */
  datatype Directory = Directory(byId: map<string, LocalUser>, byUsername: map<string, LocalUser>)
  {
    function GetById(id: string): Option<LocalUser>
    {
      if id in byId then Some(byId[id]) else None
    }

    function GetByUsername(name: string): Option<LocalUser>
    {
      if name in byUsername then Some(byUsername[name]) else None
    }
  }

  datatype RoomType = DirectMessage | PrivateGroup | Channel | Livechat

  datatype Room = Room(id: string, roomType: RoomType, slugifiedName: string, displayName: string)
}
