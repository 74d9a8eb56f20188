/**
 * The Module entity as the source holds it: an object whose private nullable
 * fields are assigned in place by its constructor and setters and read by its
 * getters. Each setter names in its `modifies` clause the only fields it may
 * assign, and is specified by `ModuleSpec.Apply` on the record's value.
 */
module Entity {
  import opened Wrappers
  import opened ModuleSpec

  class Module {
    /** The case-normalising helpers the setters call. */
    const util: StringUtil

    var id: Option<string>
    var serviceId: Option<string>
    var service: Option<Service>
    var name: Option<string>
    var groupName: Option<string>
    var menuOrder: Option<int>
    var menuDisplay: Option<bool>
    var description: Option<string>
    var iconCls: Option<string>
    var path: Option<string>

    /** The record's fields as a value. */
    ghost function State(): ModuleState
      reads this
    {
      ModuleState(id, serviceId, service, name, groupName, menuOrder, menuDisplay,
                  description, iconCls, path)
    }

    /** Defaults iconCls, menuDisplay and menuOrder; every other field starts null. */
    constructor(util: StringUtil)
      ensures this.util == util
      ensures State() == Initial() && Mirrored(State())
      ensures GetIconCls() == "windows" && IsMenuDisplay() && GetMenuOrder() == 1
      ensures GetId() == "" && GetServiceId() == "" && GetService() == None
      ensures GetGroupName() == "" && GetDescription() == None
    {
      this.util := util;
      id, serviceId, service, name, groupName, description, path :=
        None, None, None, None, None, None, None;
      iconCls := Some("windows");
      menuDisplay := Some(true);
      menuOrder := Some(1);
    }

    /** The id, or "" while the record has none. */
    function GetId(): (r: string)
      reads this`id
      ensures id.None? ==> r == ""
      ensures id.Some? ==> r == id.value
    {
      if id.Some? then id.value else ""
    }

    /** The service id, or "" while it is null. */
    function GetServiceId(): (r: string)
      reads this`serviceId
      ensures serviceId.None? ==> r == ""
      ensures serviceId.Some? ==> r == serviceId.value
    {
      if serviceId.Some? then serviceId.value else ""
    }

    /** Assigns serviceId (null allowed) and nothing else, not even service. */
    method SetServiceId(serviceId: Option<string>)
      modifies this`serviceId
      ensures this.serviceId == serviceId
      ensures GetServiceId() == if serviceId.Some? then serviceId.value else ""
      ensures State() == Apply(old(State()), Call.SetServiceId(serviceId), util)
    {
      this.serviceId := serviceId;
    }

    /** The referenced service, null included. */
    function GetService(): (r: Option<Service>)
      reads this`service
      ensures r == service
    {
      service
    }

    /** Assigns service and, when it is not null, mirrors its id into serviceId. */
    method SetService(service: Option<Service>)
      modifies this`service, this`serviceId
      ensures GetService() == service
      ensures service.Some? ==> GetServiceId() == service.value.id && serviceId == Some(service.value.id)
      ensures service.None? ==> serviceId == old(serviceId)
      ensures State() == Apply(old(State()), Call.SetService(service), util)
    {
      this.service := service;
      if service.Some? {
        serviceId := Some(service.value.id);
      }
    }

    /** The stored name; defined only once a name has been set. */
    function GetName(): (r: string)
      reads this`name
      requires name.Some?
      ensures Some(r) == name
    {
      name.value
    }

    /** Stores the upper-cased name. */
    method SetName(name: string)
      modifies this`name
      ensures this.name == Some(util.uppercase(name))
      ensures GetName() == util.uppercase(name)
      ensures State() == Apply(old(State()), Call.SetName(name), util)
    {
      this.name := Some(util.uppercase(name));
    }

    /** The group name, or "" while it is null. */
    function GetGroupName(): (r: string)
      reads this`groupName
      ensures groupName.None? ==> r == ""
      ensures groupName.Some? ==> r == groupName.value
    {
      if groupName.Some? then groupName.value else ""
    }

    /** Stores the upper-cased group name. */
    method SetGroupName(groupName: string)
      modifies this`groupName
      ensures this.groupName == Some(util.uppercase(groupName))
      ensures GetGroupName() == util.uppercase(groupName)
      ensures State() == Apply(old(State()), Call.SetGroupName(groupName), util)
    {
      this.groupName := Some(util.uppercase(groupName));
    }

    /** The menu order, or 1 while it is null. */
    function GetMenuOrder(): (r: int)
      reads this`menuOrder
      ensures menuOrder.None? ==> r == 1
      ensures menuOrder.Some? ==> r == menuOrder.value
    {
      if menuOrder.Some? then menuOrder.value else 1
    }

    /** Stores the menu order as given. */
    method SetMenuOrder(menuOrder: int)
      modifies this`menuOrder
      ensures this.menuOrder == Some(menuOrder)
      ensures GetMenuOrder() == menuOrder
      ensures State() == Apply(old(State()), Call.SetMenuOrder(menuOrder), util)
    {
      this.menuOrder := Some(menuOrder);
    }

    /** The display flag, or false while it is null. */
    function IsMenuDisplay(): (r: bool)
      reads this`menuDisplay
      ensures r <==> menuDisplay == Some(true)
    {
      if menuDisplay.Some? then menuDisplay.value else false
    }

    /** Stores the display flag as given. */
    method SetMenuDisplay(menuDisplay: bool)
      modifies this`menuDisplay
      ensures this.menuDisplay == Some(menuDisplay)
      ensures IsMenuDisplay() == menuDisplay
      ensures State() == Apply(old(State()), Call.SetMenuDisplay(menuDisplay), util)
    {
      this.menuDisplay := Some(menuDisplay);
    }

    /** The description, null included. */
    function GetDescription(): (r: Option<string>)
      reads this`description
      ensures r == description
    {
      description
    }

    /** Stores the description unchanged. */
    method SetDescription(description: string)
      modifies this`description
      ensures GetDescription() == Some(description)
      ensures State() == Apply(old(State()), Call.SetDescription(description), util)
    {
      this.description := Some(description);
    }

    /** The icon class, or "" while it is null. */
    function GetIconCls(): (r: string)
      reads this`iconCls
      ensures iconCls.None? ==> r == ""
      ensures iconCls.Some? ==> r == iconCls.value
    {
      if iconCls.Some? then iconCls.value else ""
    }

    /** Stores the lower-cased icon class. */
    method SetIconCls(iconCls: string)
      modifies this`iconCls
      ensures this.iconCls == Some(util.lowercase(iconCls))
      ensures GetIconCls() == util.lowercase(iconCls)
      ensures State() == Apply(old(State()), Call.SetIconCls(iconCls), util)
    {
      this.iconCls := Some(util.lowercase(iconCls));
    }

    /** The stored path; defined only once a path has been set. */
    function GetPath(): (r: string)
      reads this`path
      requires path.Some?
      ensures Some(r) == path
    {
      path.value
    }

    /** Stores the lower-cased path. */
    method SetPath(path: string)
      modifies this`path
      ensures this.path == Some(util.lowercase(path))
      ensures GetPath() == util.lowercase(path)
      ensures State() == Apply(old(State()), Call.SetPath(path), util)
    {
      this.path := Some(util.lowercase(path));
    }
  }
}
