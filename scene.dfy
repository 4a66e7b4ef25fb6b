/** Value types shared by the adversary, the safe zone and the session manager. */
module Scene {

  /** A point or a direction in world space (Unity's Vector3), over exact reals. */
  datatype Vec3 = Vec3(x: real, y: real, z: real)

  /** A reference that may be missing, such as a collaborator the scene does not contain. */
  datatype Option<T> = None | Some(value: T)
}
