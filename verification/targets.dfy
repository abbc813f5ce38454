/**
  The slice of UnrealBuildTool's `ReadOnlyTargetRules` the build support
  reads: the target type and the target platform.
 */
module Targets {

  datatype TargetType = Game | Client | Server | Editor | Program

  /**
    `UnrealTargetPlatform` is identified by its name, which is also what its
    `ToString()` returns; any name is a platform value.
   */
  datatype Platform = Platform(name: string)

  const Win64 := Platform("Win64")
  const Mac := Platform("Mac")
  const Linux := Platform("Linux")
  const LinuxArm64 := Platform("LinuxArm64")

  datatype Target = Target(targetType: TargetType, platform: Platform)
}
