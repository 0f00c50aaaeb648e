/**
 * The objects a stream output talks to but whose insides are not part of
 * this model: the app sources payloads are written into, the input
 * selector, the streaming-state oracle, the media factory that receives
 * launch descriptions and role structures, and the server's mount points.
 * Each keeps the state the stream output can observe; whether a write or a
 * selection succeeds, and what the oracle answers, is decided by fields the
 * environment sets.
 */
module Gst {
  import opened Wrappers
  import opened Formats
  import opened Access

  /**
   * The streaming-state oracle (`States`). Its answer can change between
   * calls, driven by the clients of the stream.
   */
  class States {
    var answer: bool

    constructor (answer: bool)
      ensures this.answer == answer
    {
      this.answer := answer;
    }

    /** `should_stream`: whether the caller should keep pumping units. */
    method ShouldStream() returns (b: bool)
      ensures b == answer
    {
      b := answer;
    }
  }

  /**
   * An app source the pipeline reads payloads from (`MaybeAppSrc`). Until
   * the pipeline hands over its live element, or when the element rejects a
   * buffer, writes fail; `accepting` says which is the case now.
   */
  class MaybeAppSrc {
    var accepting: bool
    var state: Option<States>
    /** Every payload the source has accepted, in order. */
    ghost var written: seq<Bytes>

    constructor ()
      ensures state.None? && written == []
    {
      state := None;
      written := [];
    }

    /** `write_all`: hand the whole payload over, or fail and deliver nothing. */
    method WriteAll(data: Bytes) returns (ok: bool)
      modifies this`written
      ensures ok == accepting
      ensures written == if ok then old(written) + [data] else old(written)
    {
      ok := accepting;
      if ok {
        written := written + [data];
      }
    }
  }

  /**
   * The video input selector (`MaybeInputSelect`). Selection fails while the
   * pipeline has not handed over its live element; `ready` says whether it has.
   */
  class MaybeInputSelect {
    var ready: bool
    /** The selector pad currently feeding the output, once one was chosen. */
    var active: Option<nat>

    constructor ()
      ensures active.None?
    {
      active := None;
    }

    /** `set_input`: make the given pad the active one. */
    method SetInput(index: nat) returns (ok: bool)
      modifies this`active
      ensures ok == ready
      ensures active == if ok then Some(index) else old(active)
    {
      ok := ready;
      if ok {
        active := Some(index);
      }
    }
  }

  /** The RTSP media factory of one stream: its launch description, roles and sharing. */
  class MediaFactory {
    var launch: string
    /** Every description installed with `set_launch`, in order. */
    ghost var launches: seq<string>
    var roles: seq<RoleStructure>
    var shared: bool

    constructor ()
      ensures launches == [] && roles == [] && !shared
    {
      launch := "";
      launches := [];
      roles := [];
      shared := false;
    }

    /** `set_launch`: install a new launch description. */
    method SetLaunch(description: string)
      modifies this`launch, this`launches
      ensures launch == description
      ensures launches == old(launches) + [description]
    {
      launch := description;
      launches := launches + [description];
    }

    /** `add_role_from_structure`: append one role structure. */
    method AddRole(rule: RoleStructure)
      modifies this`roles
      ensures roles == old(roles) + [rule]
    {
      roles := roles + [rule];
    }

    /** `set_shared`: whether all clients share one media pipeline. */
    method SetShared(shared: bool)
      modifies this`shared
      ensures this.shared == shared
    {
      this.shared := shared;
    }
  }

  /** The server's mount points: which factory serves each path. */
  class MountPoints {
    var factories: map<string, MediaFactory>

    constructor ()
      ensures factories == map[]
    {
      factories := map[];
    }

    /** `add_factory`: serve `path` with `factory`, replacing what served it before. */
    method AddFactory(path: string, factory: MediaFactory)
      modifies this
      ensures factories == old(factories)[path := factory]
    {
      factories := factories[path := factory];
    }
  }
}
