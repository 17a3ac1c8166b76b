/** The scene's two arrangements, the `TreeMode` enum shared by every component. */
module Types {

  datatype TreeMode = Formed | Chaos
}
