/** The client-controlled player: its intent flags, its lazily built key-binding
    table, the packets its input handlers send, and the kinematic state held by
    its sprite. */
module Entity {
  import opened Util
  import opened Net

  /** Degrees per `rotateLeft`/`rotateRight` call. */
  const ROTATION_SPEED: int := 5
  /** World units per `moveForward`/`moveBack` call. */
  const MOVEMENT_SPEED: int := 5

  /** The host toolkit's key codes for the four arrow keys. */
  const UP: int := 19
  const DOWN: int := 20
  const LEFT: int := 21
  const RIGHT: int := 22

  /** The movement intents a key press raises. */
  datatype Flag = MoveUp | MoveDown | MoveRight | MoveLeft

  /** The state packet a key release sends. */
  datatype Report = SendLocation | SendRotation

  /** One entry of the key-binding table. A press raises `flag`; a release
      schedules `flag` for removal and then sends the packet `report` names. */
  datatype PlayerAction = PlayerAction(flag: Flag, report: Report)

  /** The part of the sprite the model tracks: position and rotation in degrees. */
  datatype Pose = Pose(x: real, y: real, rotation: real)

  /** A key edge as the input source delivers it. */
  datatype KeyEvent = KeyDown(keycode: int) | KeyUp(keycode: int)

  /** The table `bindKeys` installs: each arrow key bound to its own flag, the
      vertical keys reporting the location, the horizontal ones the rotation. */
  function DefaultKeyBinds(): (binds: map<int, PlayerAction>)
    ensures binds.Keys == {UP, DOWN, RIGHT, LEFT}
    ensures forall k1, k2 | k1 in binds && k2 in binds && binds[k1].flag == binds[k2].flag :: k1 == k2
    ensures forall k | k in binds :: binds[k].report == SendLocation <==> k == UP || k == DOWN
  {
    map[UP := PlayerAction(MoveUp, SendLocation),
        DOWN := PlayerAction(MoveDown, SendLocation),
        RIGHT := PlayerAction(MoveRight, SendRotation),
        LEFT := PlayerAction(MoveLeft, SendRotation)]
  }

  /** The packet a key release sends for a player whose sprite is at `pose`. */
  function ReleasePacket(report: Report, playerId: int, pose: Pose): (p: Packet)
    ensures p.playerId == playerId
    ensures p.Location? <==> report == SendLocation
    ensures p.Rotation? <==> report == SendRotation
    ensures p.Location? ==> p.x == pose.x && p.y == pose.y
    ensures p.Rotation? ==> p.rotation == pose.rotation
  {
    match report
    case SendLocation => Location(playerId, pose.x, pose.y)
    case SendRotation => Rotation(playerId, pose.rotation)
  }

  /** The edge packets `keyDown`/`keyUp` send for `event`, `clientId` being the
      id of the client's own player: one packet on a bound key, none otherwise. */
  function EdgePackets(clientId: int, event: KeyEvent): (packets: seq<Packet>)
    ensures |packets| <= 1
    ensures |packets| == 1 <==> event.keycode in DefaultKeyBinds()
    ensures forall p | p in packets ::
      p == (if event.KeyDown? then KeyPressed(clientId, event.keycode) else KeyUnpressed(clientId, event.keycode))
  {
    if event.keycode !in DefaultKeyBinds() then []
    else match event
      case KeyDown(k) => [KeyPressed(clientId, k)]
      case KeyUp(k) => [KeyUnpressed(clientId, k)]
  }

  /** Everything a run of `keyDown`/`keyUp` calls sends, in order. */
  function EdgeLog(clientId: int, events: seq<KeyEvent>): (packets: seq<Packet>)
    ensures |packets| <= |events|
  {
    if events == [] then []
    else EdgeLog(clientId, events[..|events| - 1]) + EdgePackets(clientId, events[|events| - 1])
  }

  /** A run of key edges sends nothing but edge packets, all under the client's id. */
  lemma {:induction false} EdgeLogOnlyEdgePackets(clientId: int, events: seq<KeyEvent>)
    ensures forall p | p in EdgeLog(clientId, events) :: (p.KeyPressed? || p.KeyUnpressed?) && p.playerId == clientId
  {
    if events != [] {
      EdgeLogOnlyEdgePackets(clientId, events[..|events| - 1]);
    }
  }

  /** Over any run of key edges, the client sends exactly one KeyPressed packet
      per `keyDown` of a bound key and none for an unbound one. */
  lemma {:induction false} EdgeLogCountsKeyDowns(clientId: int, events: seq<KeyEvent>, k: int)
    ensures CountOf(EdgeLog(clientId, events), KeyPressed(clientId, k))
         == if k in DefaultKeyBinds() then CountOf(events, KeyDown(k)) else 0
  {
    if events == [] {
      assert EdgeLog(clientId, events) == [];
    } else {
      var init, last := events[..|events| - 1], events[|events| - 1];
      assert events == init + [last];
      var packets := EdgePackets(clientId, last);
      assert EdgeLog(clientId, events) == EdgeLog(clientId, init) + packets;
      EdgeLogCountsKeyDowns(clientId, init, k);
      CountOfAppend(EdgeLog(clientId, init), packets, KeyPressed(clientId, k));
      CountOfSnoc(init, last, KeyDown(k));
      if packets == [] {
        assert CountOf(packets, KeyPressed(clientId, k)) == 0;
      } else {
        assert packets == [] + [packets[0]];
        CountOfSnoc([], packets[0], KeyPressed(clientId, k));
      }
    }
  }


  /** Over any run of key edges, the client sends exactly one KeyUnpressed packet
      per `keyUp` of a bound key and none for an unbound one. */
  lemma {:induction false} EdgeLogCountsKeyUps(clientId: int, events: seq<KeyEvent>, k: int)
    ensures CountOf(EdgeLog(clientId, events), KeyUnpressed(clientId, k))
         == if k in DefaultKeyBinds() then CountOf(events, KeyUp(k)) else 0
  {
    if events == [] {
      assert EdgeLog(clientId, events) == [];
    } else {
      var init, last := events[..|events| - 1], events[|events| - 1];
      assert events == init + [last];
      var packets := EdgePackets(clientId, last);
      assert EdgeLog(clientId, events) == EdgeLog(clientId, init) + packets;
      EdgeLogCountsKeyUps(clientId, init, k);
      CountOfAppend(EdgeLog(clientId, init), packets, KeyUnpressed(clientId, k));
      CountOfSnoc(init, last, KeyUp(k));
      if packets == [] {
        assert CountOf(packets, KeyUnpressed(clientId, k)) == 0;
      } else {
        assert packets == [] + [packets[0]];
        CountOfSnoc([], packets[0], KeyUnpressed(clientId, k));
      }
    }
  }


  /** The pose after `sprite.rotate(degrees)`. */
  function Rotated(pose: Pose, degrees: real): (r: Pose)
    ensures r.x == pose.x && r.y == pose.y
    ensures r.rotation - pose.rotation == degrees
  {
    pose.(rotation := pose.rotation + degrees)
  }

  /** `rotateRight` undoes `rotateLeft` and the other way round. */
  lemma RotationsCancel(pose: Pose)
    ensures Rotated(Rotated(pose, ROTATION_SPEED as real), -ROTATION_SPEED as real) == pose
    ensures Rotated(Rotated(pose, -ROTATION_SPEED as real), ROTATION_SPEED as real) == pose
  {
  }

  /** The pose after moving `speed` units along the sprite's heading, with the
      toolkit's degree-based cosine and sine supplied by the caller. */
  function Advanced(pose: Pose, speed: real, cosDeg: real -> real, sinDeg: real -> real): (r: Pose)
    ensures r.rotation == pose.rotation
    ensures r.x - pose.x == speed * cosDeg(pose.rotation)
    ensures r.y - pose.y == speed * sinDeg(pose.rotation)
  {
    Pose(pose.x + speed * cosDeg(pose.rotation), pose.y + speed * sinDeg(pose.rotation), pose.rotation)
  }

  /** `moveBack` displaces by the negation of `moveForward` at the same angle,
      so one undoes the other. */
  lemma MovesCancel(pose: Pose, cosDeg: real -> real, sinDeg: real -> real)
    ensures Advanced(Advanced(pose, MOVEMENT_SPEED as real, cosDeg, sinDeg), -MOVEMENT_SPEED as real, cosDeg, sinDeg) == pose
    ensures Advanced(Advanced(pose, -MOVEMENT_SPEED as real, cosDeg, sinDeg), MOVEMENT_SPEED as real, cosDeg, sinDeg) == pose
  {
  }

  /** The client singleton as the player sees it: the packet dispatcher and the
      client's own player (null before the server assigns one). The screen model
      refers to the same player by its position in the registry of flaggables. */
  class Client {
    const dispatcher: PacketDispatcher
    var player: Player?

    constructor (dispatcher: PacketDispatcher)
      ensures this.dispatcher == dispatcher && player == null
    {
      this.dispatcher := dispatcher;
      player := null;
    }
  }

  /** The player controlled by this client. */
  class Player {
    /** Assigned by the server from the connection; never changes. */
    const playerId: int
    /** Where packets go and where the client's own player is found. */
    const client: Client
    /** Position and rotation of the player's sprite. */
    var sprite: Pose
    /** The key-binding table: None until `GetKeyBinds` first builds it. */
    var keyBinds: Option<map<int, PlayerAction>>
    /** The currently active flags. */
    var flags: set<Flag>
    /** Flags scheduled to leave `flags` at the next tick. */
    var flagsToRemove: set<Flag>

    /** Once built, the binding table is the default one. */
    ghost predicate Valid()
      reads this
    {
      keyBinds.Some? ==> keyBinds.value == DefaultKeyBinds()
    }

    /** A new player with no flags and no bindings yet; the sprite's initial
        pose comes from the sprite container. */
    constructor (playerId: int, client: Client, sprite: Pose)
      ensures Valid()
      ensures this.playerId == playerId && this.client == client && this.sprite == sprite
      ensures keyBinds == None && flags == {} && flagsToRemove == {}
    {
      this.playerId := playerId;
      this.client := client;
      this.sprite := sprite;
      keyBinds := None;
      flags := {};
      flagsToRemove := {};
    }

    /** Raises `flag`; raising a flag already active changes nothing. */
    method AddFlag(flag: Flag)
      modifies this`flags
      ensures flags == old(flags) + {flag}
      ensures flag in old(flags) ==> flags == old(flags)
    {
      flags := flags + {flag};
    }

    /** Schedules `flag` for removal; the active set is left as it is. */
    method FlagToRemove(flag: Flag)
      modifies this`flagsToRemove
      ensures flagsToRemove == old(flagsToRemove) + {flag}
      ensures flag in old(flagsToRemove) ==> flagsToRemove == old(flagsToRemove)
    {
      flagsToRemove := flagsToRemove + {flag};
    }

    /** Sends the sprite's current position. */
    method SendLocationPacket()
      modifies client.dispatcher
      ensures client.dispatcher.sent == old(client.dispatcher.sent) + [Location(playerId, sprite.x, sprite.y)]
    {
      client.dispatcher.SendUdp(Location(playerId, sprite.x, sprite.y));
    }

    /** Sends the sprite's current rotation. */
    method SendRotationPacket()
      modifies client.dispatcher
      ensures client.dispatcher.sent == old(client.dispatcher.sent) + [Rotation(playerId, sprite.rotation)]
    {
      client.dispatcher.SendUdp(Rotation(playerId, sprite.rotation));
    }

    method SetRotation(angle: real)
      modifies this`sprite
      ensures sprite == old(sprite).(rotation := angle)
    {
      sprite := sprite.(rotation := angle);
    }

    /** Fills the table with the four arrow-key bindings, keeping any other entry.
        The table must already exist. */
    method BindKeys()
      requires keyBinds.Some?
      modifies this`keyBinds
      ensures keyBinds.Some?
      ensures keyBinds.value.Keys == old(keyBinds.value).Keys + {UP, DOWN, RIGHT, LEFT}
      ensures forall k | k in keyBinds.value ::
        keyBinds.value[k] == if k in DefaultKeyBinds() then DefaultKeyBinds()[k] else old(keyBinds.value)[k]
    {
      var binds := keyBinds.value;
      binds := binds[UP := PlayerAction(MoveUp, SendLocation)];
      binds := binds[DOWN := PlayerAction(MoveDown, SendLocation)];
      binds := binds[RIGHT := PlayerAction(MoveRight, SendRotation)];
      binds := binds[LEFT := PlayerAction(MoveLeft, SendRotation)];
      keyBinds := Some(binds);
    }

    method GetX() returns (x: real)
      ensures x == sprite.x
    {
      x := sprite.x;
    }

    method GetY() returns (y: real)
      ensures y == sprite.y
    {
      y := sprite.y;
    }

    method SetX(x: real)
      modifies this`sprite
      ensures sprite == old(sprite).(x := x)
    {
      sprite := sprite.(x := x);
    }

    method SetY(y: real)
      modifies this`sprite
      ensures sprite == old(sprite).(y := y)
    {
      sprite := sprite.(y := y);
    }

    /** Turns counter-clockwise by ROTATION_SPEED degrees; the position stays. */
    method RotateLeft()
      modifies this`sprite
      ensures sprite == Rotated(old(sprite), ROTATION_SPEED as real)
    {
      sprite := Rotated(sprite, ROTATION_SPEED as real);
    }

    /** Turns clockwise by ROTATION_SPEED degrees; the position stays. */
    method RotateRight()
      modifies this`sprite
      ensures sprite == Rotated(old(sprite), -ROTATION_SPEED as real)
    {
      sprite := Rotated(sprite, -ROTATION_SPEED as real);
    }

    /** Moves MOVEMENT_SPEED units along the current heading. */
    method MoveForward(cosDeg: real -> real, sinDeg: real -> real)
      modifies this`sprite
      ensures sprite == Advanced(old(sprite), MOVEMENT_SPEED as real, cosDeg, sinDeg)
    {
      sprite := Advanced(sprite, MOVEMENT_SPEED as real, cosDeg, sinDeg);
    }

    /** Moves MOVEMENT_SPEED units against the current heading. */
    method MoveBack(cosDeg: real -> real, sinDeg: real -> real)
      modifies this`sprite
      ensures sprite == Advanced(old(sprite), -MOVEMENT_SPEED as real, cosDeg, sinDeg)
    {
      sprite := Advanced(sprite, -MOVEMENT_SPEED as real, cosDeg, sinDeg);
    }

    /** Returns the binding table, building it on first use; later calls return
        the same table without binding again. */
    method GetKeyBinds() returns (binds: map<int, PlayerAction>)
      requires Valid()
      modifies this`keyBinds
      ensures Valid()
      ensures keyBinds == Some(binds) && binds == DefaultKeyBinds()
      ensures old(keyBinds).Some? ==> keyBinds == old(keyBinds)
    {
      if keyBinds.None? {
        keyBinds := Some(map[]);
        BindKeys();
        assert keyBinds.value.Keys == DefaultKeyBinds().Keys;
      }
      binds := keyBinds.value;
    }

    /** The press half of a binding: raises the bound flag. */
    method RunPressed(action: PlayerAction)
      modifies this`flags
      ensures flags == old(flags) + {action.flag}
    {
      AddFlag(action.flag);
    }

    /** The release half of a binding: schedules the bound flag for removal, then
        reports the sprite's location or rotation. */
    method RunUnpressed(action: PlayerAction)
      modifies this`flagsToRemove, client.dispatcher
      ensures flagsToRemove == old(flagsToRemove) + {action.flag}
      ensures client.dispatcher.sent == old(client.dispatcher.sent) + [ReleasePacket(action.report, playerId, sprite)]
    {
      FlagToRemove(action.flag);
      match action.report
      case SendLocation => SendLocationPacket();
      case SendRotation => SendRotationPacket();
    }

    /** The local handler of a key press: raises exactly the flag bound to `keycode`
        and sends nothing. An unbound key has no action to run. */
    method KeyPressed(keycode: int)
      requires Valid()
      requires keycode in DefaultKeyBinds()
      modifies this`keyBinds, this`flags
      ensures Valid() && keyBinds == Some(DefaultKeyBinds())
      ensures flags == old(flags) + {DefaultKeyBinds()[keycode].flag}
    {
      var binds := GetKeyBinds();
      RunPressed(binds[keycode]);
    }

    /** The local handler of a key release: schedules removal of exactly the flag
        bound to `keycode` and sends one packet, the location for the vertical keys
        and the rotation for the horizontal ones. */
    method KeyUnpressed(keycode: int)
      requires Valid()
      requires keycode in DefaultKeyBinds()
      modifies this`keyBinds, this`flagsToRemove, client.dispatcher
      ensures Valid() && keyBinds == Some(DefaultKeyBinds())
      ensures flagsToRemove == old(flagsToRemove) + {DefaultKeyBinds()[keycode].flag}
      ensures keycode == UP || keycode == DOWN ==>
        client.dispatcher.sent == old(client.dispatcher.sent) + [Location(playerId, sprite.x, sprite.y)]
      ensures keycode == LEFT || keycode == RIGHT ==>
        client.dispatcher.sent == old(client.dispatcher.sent) + [Rotation(playerId, sprite.rotation)]
    {
      var binds := GetKeyBinds();
      RunUnpressed(binds[keycode]);
    }

    /** Input callback for a key going down: tells the server about a bound key
        under the client player's id, changes no flag, and always reports the
        event as handled. */
    method KeyDown(keycode: int) returns (handled: bool)
      requires Valid()
      requires keycode in DefaultKeyBinds() ==> client.player != null
      modifies this`keyBinds, client.dispatcher
      ensures Valid() && keyBinds == Some(DefaultKeyBinds())
      ensures handled
      ensures flags == old(flags) && flagsToRemove == old(flagsToRemove)
      ensures keycode !in DefaultKeyBinds() ==> client.dispatcher.sent == old(client.dispatcher.sent)
      ensures keycode in DefaultKeyBinds() ==>
        client.dispatcher.sent == old(client.dispatcher.sent) + EdgePackets(client.player.playerId, KeyEvent.KeyDown(keycode))
    {
      var binds := GetKeyBinds();
      if keycode in binds {
        var player := client.player;
        client.dispatcher.SendUdp(Packet.KeyPressed(player.playerId, keycode));
      }
      handled := true;
    }

    /** Input callback for a key going up: the mirror image of `KeyDown`. */
    method KeyUp(keycode: int) returns (handled: bool)
      requires Valid()
      requires keycode in DefaultKeyBinds() ==> client.player != null
      modifies this`keyBinds, client.dispatcher
      ensures Valid() && keyBinds == Some(DefaultKeyBinds())
      ensures handled
      ensures flags == old(flags) && flagsToRemove == old(flagsToRemove)
      ensures keycode !in DefaultKeyBinds() ==> client.dispatcher.sent == old(client.dispatcher.sent)
      ensures keycode in DefaultKeyBinds() ==>
        client.dispatcher.sent == old(client.dispatcher.sent) + EdgePackets(client.player.playerId, KeyEvent.KeyUp(keycode))
    {
      var binds := GetKeyBinds();
      if keycode in binds {
        var player := client.player;
        client.dispatcher.SendUdp(Packet.KeyUnpressed(player.playerId, keycode));
      }
      handled := true;
    }

    /** The remaining input callbacks are inert: they decline the event and
        change nothing. */
    method KeyTyped(character: char) returns (handled: bool)
      ensures !handled
    {
      handled := false;
    }

    method TouchDown(screenX: int, screenY: int, pointer: int, button: int) returns (handled: bool)
      ensures !handled
    {
      handled := false;
    }

    method TouchUp(screenX: int, screenY: int, pointer: int, button: int) returns (handled: bool)
      ensures !handled
    {
      handled := false;
    }

    method TouchDragged(screenX: int, screenY: int, pointer: int) returns (handled: bool)
      ensures !handled
    {
      handled := false;
    }

    method MouseMoved(screenX: int, screenY: int) returns (handled: bool)
      ensures !handled
    {
      handled := false;
    }

    method Scrolled(amount: int) returns (handled: bool)
      ensures !handled
    {
      handled := false;
    }
  }
}
