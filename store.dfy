/** The three MongoDB collections the services share, held in memory in
    insertion order, and the counter that hands out the next `_id`. Later
    records have larger ids, as ObjectIds do. */
module Store {
  import opened UserModel
  import opened ApplicationModel
  import opened InterfaceModel

  class Database {
    var users: seq<User>
    var apps: seq<Application>
    var apis: seq<Interface>
    var nextId: nat

    constructor (users: seq<User>, apps: seq<Application>, apis: seq<Interface>, nextId: nat)
      ensures this.users == users && this.apps == apps && this.apis == apis && this.nextId == nextId
    {
      this.users := users;
      this.apps := apps;
      this.apis := apis;
      this.nextId := nextId;
    }
  }
}
