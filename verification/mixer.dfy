/**
 * The mixing console as the services see it: a program scene, a preview
 * scene, and the set-program calls made on it. Queries fail when the
 * console cannot be reached; the network protocol itself is not modelled.
 */
module MixerConsole {
  import opened Wrappers

  class Mixer {
    var program: string
    var preview: string
    var reachable: bool
    /** Every set_program_scene call, in order. */
    var setCalls: seq<string>

    constructor(program: string, preview: string, reachable: bool)
      ensures this.program == program && this.preview == preview && this.reachable == reachable
      ensures setCalls == []
    {
      this.program := program;
      this.preview := preview;
      this.reachable := reachable;
      setCalls := [];
    }

    /** get_current_program_scene: the program scene, or nothing when unreachable. */
    method GetCurrentProgramScene() returns (name: Option<string>)
      ensures reachable ==> name == Some(program)
      ensures !reachable ==> name.None?
    {
      if reachable {
        name := Some(program);
      } else {
        name := None;
      }
    }

    /** get_current_preview_scene: the preview scene, or nothing when unreachable. */
    method GetCurrentPreviewScene() returns (name: Option<string>)
      ensures reachable ==> name == Some(preview)
      ensures !reachable ==> name.None?
    {
      if reachable {
        name := Some(preview);
      } else {
        name := None;
      }
    }

    /** set_program_scene: records the call and puts `name` on program. */
    method SetProgramScene(name: string)
      modifies this
      ensures setCalls == old(setCalls) + [name]
      ensures program == name
      ensures preview == old(preview) && reachable == old(reachable)
    {
      setCalls := setCalls + [name];
      program := name;
    }
  }
}
