/** The plugin's fixed tables: where to look and how to decode what is found. */
module Tables {

  /** Run keys of a machine SOFTWARE hive (HKLM\Software). */
  const SoftwareRunKeys: seq<string> := [
    "Microsoft\\Windows\\CurrentVersion\\Run",
    "Microsoft\\Windows\\CurrentVersion\\RunOnce",
    "Microsoft\\Windows\\CurrentVersion\\RunServices",
    "Microsoft\\Windows\\CurrentVersion\\Policies\\Explorer\\Run",
    "Wow6432Node\\Microsoft\\Windows\\CurrentVersion\\Run",
    "Wow6432Node\\Microsoft\\Windows\\CurrentVersion\\RunOnce",
    "Wow6432Node\\Microsoft\\Windows\\CurrentVersion\\Policies\\Explorer\\Run",
    "Microsoft\\Windows NT\\CurrentVersion\\Terminal Server\\Install\\Software\\Microsoft\\Windows\\CurrentVersion\\Run",
    "Microsoft\\Windows NT\\CurrentVersion\\Terminal Server\\Install\\Software\\Microsoft\\Windows\\CurrentVersion\\RunOnce"
  ]

  /** Run keys of a per-user NTUSER.DAT hive (HKCU). */
  const NtuserRunKeys: seq<string> := [
    "Software\\Microsoft\\Windows\\CurrentVersion\\Run",
    "Software\\Microsoft\\Windows\\CurrentVersion\\RunOnce",
    "Software\\Microsoft\\Windows\\CurrentVersion\\RunServices",
    "Software\\Microsoft\\Windows\\CurrentVersion\\RunServicesOnce",
    "Software\\Microsoft\\Windows\\CurrentVersion\\Policies\\Explorer\\Run",
    "Software\\Microsoft\\Windows NT\\CurrentVersion\\Terminal Server\\Install\\Software\\Microsoft\\Windows\\CurrentVersion\\Run",
    "Software\\Microsoft\\Windows NT\\CurrentVersion\\Terminal Server\\Install\\Software\\Microsoft\\Windows\\CurrentVersion\\RunOnce",
    "Software\\Microsoft\\Windows NT\\CurrentVersion\\Run",
    "Software\\Wow6432Node\\Microsoft\\Windows\\CurrentVersion\\Policies\\Explorer\\Run",
    "Software\\Wow6432Node\\Microsoft\\Windows\\CurrentVersion\\Run"
  ]

  /** The events a (pre-Vista) Winlogon notification package can hook, in order. */
  const WinlogonNotificationEvents: seq<string> := [
    "Lock", "Logoff", "Logon", "Shutdown", "StartScreenSaver",
    "StartShell", "Startup", "StopScreenSaver", "Unlock"
  ]

  /** Notification packages shipped with Windows, hidden unless verbose. */
  const WinlogonRegistrationKnownDlls: seq<string> := [
    "crypt32.dll", "cryptnet.dll", "cscdll.dll", "dimsntfy.dll",
    "sclgntfy.dll", "wlnotify.dll", "wzcdlg.dll"
  ]

  /** Winlogon values worth reporting, with their usual defaults. */
  const WinlogonCommonValues: map<string, string> := map[
    "Userinit" := "userinit.exe",
    "VmApplet" := "rundll32 shell32,Control_RunDLL \"sysdm.cpl\"",
    "Shell" := "Explorer.exe",
    "TaskMan" := "Taskmgr.exe",
    "System" := "lsass.exe"
  ]

  /** Service `Type` codes; -1 stands for a missing value. The labels are verbatim. */
  const ServiceTypes: map<int, string> := map[
    0x001 := "Kernel driver",
    0x002 := "File system driver",
    0x004 := "Argumetns for adapter",
    0x008 := "File system driver",
    0x010 := "Own_Process",
    0x020 := "Share_Process",
    0x100 := "Interactive",
    0x110 := "Interactive",
    0x120 := "Share_process Interactive",
    -1 := "Unknown"
  ]

  /** Service `Start` codes; -1 stands for a missing value. */
  const ServiceStartup: map<int, string> := map[
    0x00 := "Boot Start",
    0x01 := "System Start",
    0x02 := "Auto Start",
    0x03 := "Manual",
    0x04 := "Disabled",
    -1 := "Unknown"
  ]

  lemma NotificationEventsDistinct()
    ensures forall i, j :: 0 <= i < j < |WinlogonNotificationEvents| ==>
      WinlogonNotificationEvents[i] != WinlogonNotificationEvents[j]
  {
  }
}
