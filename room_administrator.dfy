/** The owner's dashboard (`AdminDashboard`): the list of rooms, the status
    filter, the per-room "services" expanders and the delete-confirmation
    dialog. */
module RoomAdministrator {
  import opened Wrappers
  import Lists

  datatype RoomStatus = Disponible | Ocupado | EnRevision

  datatype RoomServices = RoomServices(
    bathroom: bool,
    wifi: bool,
    electricity: bool,
    water: bool,
    furnished: bool,
    kitchen: bool,
    ac: bool,
    laundry: bool)

  datatype Room = Room(
    id: int,
    title: string,
    description: string,
    status: RoomStatus,
    price: int,
    date: string,
    image: string,
    street: string,
    number: string,
    neighborhood: string,
    postalCode: string,
    city: string,
    state: string,
    services: RoomServices)

  /** The filter buttons: `'all'` or one status. */
  datatype StatusFilter = All | Only(status: RoomStatus)

  /** The three rooms the dashboard starts with. */
  function SeedRooms(): seq<Room> {
    [ Room(1, "Habitación Premium en Centro Histórico", SeedDescription1, Disponible, 3500, "2023-06-15",
           SeedImage1, "Av. Juárez", "123", "Centro Histórico", "06000", "Ciudad de México", "CDMX",
           RoomServices(true, true, true, true, true, false, true, true)),
      Room(2, "Departamento compartido Zona Norte", SeedDescription2, Ocupado, 2800, "2023-06-22",
           SeedImage2, "Calle Sierra Nevada", "45", "Lomas de Chapultepec", "11000", "Ciudad de México", "CDMX",
           RoomServices(true, true, true, true, true, true, false, false)),
      Room(3, "Casa completa en Colonia Roma", SeedDescription3, EnRevision, 8000, "2023-07-05",
           SeedImage3, "Calle Oaxaca", "78", "Roma Norte", "06700", "Ciudad de México", "CDMX",
           RoomServices(true, true, true, true, true, true, true, true)) ]
  }

  const SeedDescription1: string :=
    "Amplia habitación con baño privado, excelente iluminación natural y mobiliario moderno. Ideal para estudiantes o profesionales."
  const SeedDescription2: string :=
    "Habitación privada en departamento con áreas comunes amplias. Incluye servicios básicos y acceso a cocina compartida."
  const SeedDescription3: string :=
    "Casa estilo colonial con 3 recámaras, jardín y cocina equipada. Excelente ubicación cerca de parques y transporte público."
  const SeedImage1: string :=
    "https://images.unsplash.com/photo-1554469384-e58fac16e23a?ixlib=rb-1.2.1&auto=format&fit=crop&w=500&q=80"
  const SeedImage2: string :=
    "https://images.unsplash.com/photo-1522708323590-d24dbb6b0267?ixlib=rb-1.2.1&auto=format&fit=crop&w=500&q=80"
  const SeedImage3: string :=
    "https://images.unsplash.com/photo-1512917774080-9991f1c4c750?ixlib=rb-1.2.1&auto=format&fit=crop&w=500&q=80"

  // ---------------------------------------------------------------------------
  // filtering

  function HasStatus(s: RoomStatus): Room -> bool {
    (room: Room) => room.status == s
  }

  /** `filteredRooms`. */
  function FilteredRooms(rooms: seq<Room>, filter: StatusFilter): seq<Room> {
    match filter
    case All => rooms
    case Only(s) => Lists.Filter(rooms, HasStatus(s))
  }

  /** A room is listed exactly when it is on the dashboard and passes the
      filter, and it is listed as often as it is held. */
  lemma FilteredRoomsExactly(rooms: seq<Room>, filter: StatusFilter, room: Room)
    ensures room in FilteredRooms(rooms, filter) <==> room in rooms && (filter.All? || room.status == filter.status)
    ensures filter.All? || room.status == filter.status ==>
      multiset(FilteredRooms(rooms, filter))[room] == multiset(rooms)[room]
  {
    if filter.Only? {
      Lists.FilterMembers(rooms, HasStatus(filter.status), room);
      Lists.FilterCounts(rooms, HasStatus(filter.status), room);
    }
  }

  /** The filtered list keeps the dashboard's order: filtering a list split
      in two is filtering each half. */
  lemma FilteredRoomsKeepOrder(front: seq<Room>, back: seq<Room>, filter: StatusFilter)
    ensures FilteredRooms(front + back, filter) == FilteredRooms(front, filter) + FilteredRooms(back, filter)
  {
    if filter.Only? {
      Lists.FilterAppend(front, back, HasStatus(filter.status));
    }
  }

  /** The three status counts add up to the "all" count. */
  lemma {:induction false} StatusCountsAddUp(rooms: seq<Room>)
    ensures |FilteredRooms(rooms, Only(Disponible))| + |FilteredRooms(rooms, Only(Ocupado))|
          + |FilteredRooms(rooms, Only(EnRevision))| == |FilteredRooms(rooms, All)|
  {
    if rooms != [] {
      StatusCountsAddUp(rooms[1..]);
    }
  }

  /** Each filter button shows one of the three starting rooms. */
  lemma SeedHasOneRoomPerStatus()
    ensures |FilteredRooms(SeedRooms(), All)| == 3
    ensures FilteredRooms(SeedRooms(), Only(Disponible)) == [SeedRooms()[0]]
    ensures FilteredRooms(SeedRooms(), Only(Ocupado)) == [SeedRooms()[1]]
    ensures FilteredRooms(SeedRooms(), Only(EnRevision)) == [SeedRooms()[2]]
  {
    var s := SeedRooms();
    assert s[1..][1..][1..] == [];
  }

  // ---------------------------------------------------------------------------
  // expanders

  /** `expandedServices[id]`: an id never toggled reads as collapsed. */
  function Expanded(expanded: map<int, bool>, id: int): bool {
    id in expanded && expanded[id]
  }

  /** Toggling twice leaves every expander as it was shown before. */
  lemma ToggleTwiceRestores(expanded: map<int, bool>, id: int, other: int)
    ensures var once := expanded[id := !Expanded(expanded, id)];
      Expanded(once[id := !Expanded(once, id)], other) == Expanded(expanded, other)
  {
  }

  // ---------------------------------------------------------------------------
  // deletion

  function HasOtherId(id: int): Room -> bool {
    (room: Room) => room.id != id
  }

  /** The rooms left after deleting `id`. */
  function WithoutRoom(rooms: seq<Room>, id: int): seq<Room> {
    Lists.Filter(rooms, HasOtherId(id))
  }

  /** Deleting removes every room with that id and keeps every other room
      as often as it was held. */
  lemma DeleteRemovesOnlyThatId(rooms: seq<Room>, id: int, room: Room)
    ensures room in WithoutRoom(rooms, id) <==> room in rooms && room.id != id
    ensures room.id != id ==> multiset(WithoutRoom(rooms, id))[room] == multiset(rooms)[room]
  {
    Lists.FilterMembers(rooms, HasOtherId(id), room);
    Lists.FilterCounts(rooms, HasOtherId(id), room);
  }

  /** Deleting a room whose id occurs nowhere else shortens the list by one. */
  lemma {:induction false} DeleteUniqueShortensByOne(rooms: seq<Room>, i: nat)
    requires i < |rooms|
    requires forall k :: 0 <= k < |rooms| && k != i ==> rooms[k].id != rooms[i].id
    ensures WithoutRoom(rooms, rooms[i].id) == rooms[..i] + rooms[i + 1..]
  {
    var id := rooms[i].id;
    assert rooms == rooms[..i] + [rooms[i]] + rooms[i + 1..];
    Lists.FilterAppend(rooms[..i] + [rooms[i]], rooms[i + 1..], HasOtherId(id));
    Lists.FilterAppend(rooms[..i], [rooms[i]], HasOtherId(id));
    Lists.FilterKeepsAll(rooms[..i], HasOtherId(id));
    Lists.FilterKeepsAll(rooms[i + 1..], HasOtherId(id));
    assert Lists.Filter([rooms[i]], HasOtherId(id)) == [];
  }

  // ---------------------------------------------------------------------------
  // the dashboard's state

  class Dashboard {
    var filter: StatusFilter
    var expandedServices: map<int, bool>
    var rooms: seq<Room>
    var openDeleteDialog: bool
    var selectedRoom: Option<Room>

    constructor ()
      ensures filter == All && expandedServices == map[] && rooms == SeedRooms()
      ensures !openDeleteDialog && selectedRoom == None
    {
      filter := All;
      expandedServices := map[];
      rooms := SeedRooms();
      openDeleteDialog := false;
      selectedRoom := None;
    }

    /** `toggleServices`: flips the expander of `roomId` only; a first
      toggle opens it. */
    method ToggleServices(roomId: int)
      modifies this`expandedServices
      ensures expandedServices == old(expandedServices)[roomId := !Expanded(old(expandedServices), roomId)]
      ensures Expanded(expandedServices, roomId) == !Expanded(old(expandedServices), roomId)
      ensures forall id :: id != roomId ==> Expanded(expandedServices, id) == Expanded(old(expandedServices), id)
    {
      var wasOpen := roomId in expandedServices && expandedServices[roomId];
      expandedServices := expandedServices[roomId := !wasOpen];
    }

    /** `handleEdit`: only logs; no state changes. */
    method HandleEdit(roomId: int)
      ensures unchanged(this)
    {
    }

    /** `handleDeleteClick`: remembers the room and opens the dialog. */
    method HandleDeleteClick(room: Room)
      modifies this`selectedRoom, this`openDeleteDialog
      ensures selectedRoom == Some(room) && openDeleteDialog
    {
      selectedRoom := Some(room);
      openDeleteDialog := true;
    }

    /** `handleDeleteConfirm`: drops every room with the selected id (nothing
      when none is selected), then closes the dialog and clears the selection. */
    method HandleDeleteConfirm()
      modifies this`rooms, this`openDeleteDialog, this`selectedRoom
      ensures old(selectedRoom).Some? ==> rooms == WithoutRoom(old(rooms), old(selectedRoom).value.id)
      ensures old(selectedRoom).None? ==> rooms == old(rooms)
      ensures !openDeleteDialog && selectedRoom == None
    {
      if selectedRoom.Some? {
        rooms := Lists.Filter(rooms, HasOtherId(selectedRoom.value.id));
      }
      openDeleteDialog := false;
      selectedRoom := None;
    }

    /** `handleDeleteCancel`: closes the dialog and clears the selection;
      the rooms stay. */
    method HandleDeleteCancel()
      modifies this`openDeleteDialog, this`selectedRoom
      ensures !openDeleteDialog && selectedRoom == None
      ensures rooms == old(rooms)
    {
      openDeleteDialog := false;
      selectedRoom := None;
    }

    /** A filter button's `onClick`. */
    method SetFilter(f: StatusFilter)
      modifies this`filter
      ensures filter == f
    {
      filter := f;
    }

    /** The rooms shown, and (by its length) the header count. */
    function ShownRooms(): (shown: seq<Room>)
      reads this
      ensures |shown| <= |rooms|
      ensures filter.All? ==> shown == rooms
      ensures forall k :: 0 <= k < |shown| ==> filter.All? || shown[k].status == filter.status
      ensures shown == FilteredRooms(rooms, filter)
    {
      var r := FilteredRooms(rooms, filter);
      assert forall k :: 0 <= k < |r| ==> r[k] in r;
      forall k | 0 <= k < |r|
        ensures filter.All? || r[k].status == filter.status
      {
        FilteredRoomsExactly(rooms, filter, r[k]);
      }
      r
    }
  }
}
